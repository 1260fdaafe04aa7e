/** The session store of pdfier/src/store/AuthStore.ts: who the visitor is
    (an authenticated user, a guest, or nobody yet), the two credentials, and
    the five actions that change them. The cookie jar is a field of the store;
    the two backend calls of `initializeAuth` are parameters; page reloads and
    router pushes are recorded, not performed. */
module AuthStore {
  import opened Wrappers
  import opened AuthTypes
  import opened Http

  // ---------------------------------------------------------------------------
  // Cookies

  /** A cookie as js-cookie writes it: the value, `expires` as written in the
      source (js-cookie reads the number as days), `secure` and `sameSite`. */
  datatype Cookie = Cookie(value: string, expires: int, secure: bool, sameSite: string)

  type Jar = map<string, Cookie>

  const AccessCookie := "accessToken"
  const RefreshCookie := "refreshToken"
  const AccessExpiry := 420
  const RefreshExpiry := 4320

  /** `Cookies.get(name)`: the value, or `undefined`. */
  function CookieValue(jar: Jar, name: string): (v: Option<string>)
    ensures v.Some? <==> name in jar
    ensures v.Some? ==> v.value == jar[name].value
  {
    if name in jar then Some(jar[name].value) else None
  }

  /** `Cookies.set(name, value, {expires, secure, sameSite: 'Lax'})`. */
  function WithCookie(jar: Jar, name: string, value: string, expires: int, secure: bool): (j: Jar)
    ensures name in j && j[name] == Cookie(value, expires, secure, "Lax")
    ensures forall n :: n != name ==> (n in j <==> n in jar) && (n in jar ==> j[n] == jar[n])
  {
    jar[name := Cookie(value, expires, secure, "Lax")]
  }

  /** `Cookies.remove('refreshToken'); Cookies.remove('accessToken')`. */
  function WithoutCredentials(jar: Jar): (j: Jar)
    ensures RefreshCookie !in j && AccessCookie !in j
    ensures forall n :: n != RefreshCookie && n != AccessCookie ==> (n in j <==> n in jar) && (n in jar ==> j[n] == jar[n])
  {
    jar - {RefreshCookie, AccessCookie}
  }

  /** The header `initializeAuth` sends: `Bearer ${accessToken}`, which reads
      `Bearer undefined` when there is no access cookie. */
  function BearerHeader(accessToken: Option<string>): (header: string)
    ensures "Bearer " <= header
    ensures accessToken.Some? ==> header[|"Bearer "|..] == accessToken.value
    ensures accessToken.None? ==> header[|"Bearer "|..] == "undefined"
  {
    "Bearer " + accessToken.GetOr("undefined")
  }

  // ---------------------------------------------------------------------------
  // Store state

  /** The fields of the store (`AuthState`). */
  datatype Session = Session(
    isLoggedIn: bool, refreshToken: Option<string>, accessToken: Option<string>,
    user: AuthUser, isInitializing: bool, isSidebarCollapsed: bool)

  /** The state the store is created with. */
  const InitialSession := Session(false, None, None, NoUser, false, true)

  /** `defaultGuestUser`: no PDF processed yet, ten a day allowed. */
  const DefaultGuestUser: GuestUser :=
    GuestRecord("guest", "Guest", "guest@example.com", false, GuestPlan, GuestUsage(0, 10, None, None, None))

  /** Navigation requested by the store: `window.location.reload()` or `router.push(path)`. */
  datatype Effect = Reload | Navigate(path: string)

  /** The store state after `logout`: a guest, logged out, no tokens. */
  function LoggedOut(s: Session): (r: Session)
    ensures r.user == Guest(DefaultGuestUser) && !r.isLoggedIn && r.refreshToken.None? && r.accessToken.None?
    ensures r.isInitializing == s.isInitializing && r.isSidebarCollapsed == s.isSidebarCollapsed
  {
    s.(user := Guest(DefaultGuestUser), isLoggedIn := false, refreshToken := None, accessToken := None)
  }

  /** Store state and cookie jar after `logout` has run `n` times in a row. */
  function LogoutTimes(s: Session, jar: Jar, n: nat): (Session, Jar) {
    if n == 0 then (s, jar)
    else
      var (s', jar') := LogoutTimes(s, jar, n - 1);
      (LoggedOut(s'), WithoutCredentials(jar'))
  }

  /** `logout` is idempotent: running it any positive number of times ends where
      running it once does, whatever the state before. */
  lemma {:induction false} RepeatedLogout(s: Session, jar: Jar, n: nat)
    requires n >= 1
    ensures LogoutTimes(s, jar, n) == (LoggedOut(s), WithoutCredentials(jar))
  {
    if n > 1 {
      RepeatedLogout(s, jar, n - 1);
      assert WithoutCredentials(WithoutCredentials(jar)) == WithoutCredentials(jar);
    }
  }

  /** The state after `logout` does not depend on who was signed in: two states
      that agree on the flags untouched by `logout` log out to the same state. */
  lemma LogoutForgetsSession(s: Session, t: Session)
    requires s.isInitializing == t.isInitializing && s.isSidebarCollapsed == t.isSidebarCollapsed
    ensures LoggedOut(s) == LoggedOut(t)
  {
  }

  /** The updater of `updateUserUsage`: the guard `user && plan_type !== 'guest'`
      holds exactly for authenticated users, whose metrics and `updated_at` (the
      time `now` of the call) are replaced; any other user is returned as is. */
  function UserUsageUpdated(u: AuthUser, newUsage: UsageMetrics, now: string): (r: AuthUser)
    ensures u.Authenticated? ==> r == Authenticated(u.user.(usageMetrics := newUsage, updatedAt := now))
    ensures !u.Authenticated? ==> r == u
  {
    if u != NoUser && PlanTypeOf(u) != Some(GuestPlan) then
      Authenticated(u.user.(usageMetrics := newUsage, updatedAt := now))
    else u
  }

  /** `updateUserUsage` keeps who the user is: name, verification, address, plan
      and creation date stay, and the new metrics are the ones given. */
  lemma UserUsageKeepsIdentity(x: User, newUsage: UsageMetrics, now: string)
    ensures var r := UserUsageUpdated(Authenticated(x), newUsage, now);
            && r.Authenticated?
            && r.user.name == x.name && r.user.verified == x.verified && r.user.ipAddress == x.ipAddress
            && r.user.planType == x.planType && r.user.createdAt == x.createdAt
            && r.user.usageMetrics == newUsage && r.user.updatedAt == now
  {
  }

  /** The updater of `updateGuestUsage`: the guard `user && plan_type === 'guest'`
      holds exactly for guests, whose daily PDF counter becomes `processedToday`
      with every limit kept; any other user is returned as is. */
  function GuestUsageUpdated(u: AuthUser, processedToday: int): (r: AuthUser)
    ensures u.Guest? ==> r == Guest(u.guest.(usageMetrics := u.guest.usageMetrics.(pdfProcessedToday := processedToday)))
    ensures !u.Guest? ==> r == u
  {
    if u != NoUser && PlanTypeOf(u) == Some(GuestPlan) then
      Guest(u.guest.(usageMetrics := u.guest.usageMetrics.(pdfProcessedToday := processedToday)))
    else u
  }

  /** `updateGuestUsage` checks nothing against the limit: any count is stored,
      including one above the daily limit, and the limit stays as it was. */
  lemma GuestUsageUnchecked(g: GuestUser, processedToday: int)
    requires processedToday > g.usageMetrics.pdfProcessedLimitDaily
    ensures var r := GuestUsageUpdated(Guest(g), processedToday);
            && r.Guest?
            && r.guest.usageMetrics.pdfProcessedToday == processedToday
            && r.guest.usageMetrics.pdfProcessedLimitDaily == g.usageMetrics.pdfProcessedLimitDaily
            && r.guest.usageMetrics.pdfProcessedToday > r.guest.usageMetrics.pdfProcessedLimitDaily
  {
  }

  /** What `persist` writes to local storage (`partialize`): everything but the
      access token and the sidebar flag. The refresh token is among it. */
  datatype Persisted = Persisted(refreshToken: Option<string>, isLoggedIn: bool, user: AuthUser, isInitializing: bool)

  function Partialize(s: Session): (p: Persisted)
    ensures p.refreshToken == s.refreshToken && p.isLoggedIn == s.isLoggedIn
    ensures p.user == s.user && p.isInitializing == s.isInitializing
  {
    Persisted(s.refreshToken, s.isLoggedIn, s.user, s.isInitializing)
  }

  /** The access token never reaches local storage: states that differ only in
      the access token (and the sidebar flag) persist the same record. */
  lemma AccessTokenNotPersisted(s: Session, accessToken: Option<string>, collapsed: bool)
    ensures Partialize(s.(accessToken := accessToken, isSidebarCollapsed := collapsed)) == Partialize(s)
  {
  }

  // ---------------------------------------------------------------------------
  // initializeAuth

  /** What `GET /api/v1/users/me` comes back with: a response (status, and the
      user its body parses to, `None` when `response.json()` throws), or a thrown
      error. */
  datatype MeOutcome = MeResponse(status: int, body: Option<User>) | MeThrew

  /** What `POST /api/v1/auth/refresh` comes back with: a response (status, and
      the access token its body parses to, `None` when `json()` throws), or a
      thrown error. */
  datatype RefreshOutcome = RefreshResponse(status: int, accessToken: Option<string>) | RefreshThrew

  /** The way `initializeAuth` goes. */
  datatype InitPath =
    | SignedIn(user: User)            // `/users/me` answered OK with a user
    | Refreshed(accessToken: string)  // 401, a refresh cookie, and the refresh answered OK with a token
    | NoRefreshCookie                 // 401 and no (or an empty) refresh cookie
    | RefreshRejected                 // 401 and the refresh answered with a non-OK status
    | Failed                          // any other status, a thrown request, or a body that is not JSON
  {
    /** Every path but the first two ends with the visitor as a logged-out guest. */
    predicate FallsBackToGuest() {
      !SignedIn? && !Refreshed?
    }
  }

  /** The 401 branch of `initializeAuth`: the refresh call is made only with a
      truthy refresh cookie, and only an OK answer with a token refreshes. */
  function RefreshPathOf(refreshCookie: Option<string>, refresh: string -> RefreshOutcome): (path: InitPath)
    ensures !path.SignedIn?
    ensures path == NoRefreshCookie <==> refreshCookie.None? || refreshCookie.value == ""
    ensures path.Refreshed? ==>
      && refreshCookie.Some? && refreshCookie.value != ""
      && refresh(refreshCookie.value).RefreshResponse? && IsOk(refresh(refreshCookie.value).status)
      && refresh(refreshCookie.value).accessToken == Some(path.accessToken)
    ensures (&& refreshCookie.Some? && refreshCookie.value != ""
             && refresh(refreshCookie.value).RefreshResponse? && IsOk(refresh(refreshCookie.value).status)
             && refresh(refreshCookie.value).accessToken.Some?) ==>
      path == Refreshed(refresh(refreshCookie.value).accessToken.value)
    ensures path == RefreshRejected <==>
      && refreshCookie.Some? && refreshCookie.value != ""
      && refresh(refreshCookie.value).RefreshResponse? && !IsOk(refresh(refreshCookie.value).status)
  {
    if refreshCookie.None? || refreshCookie.value == "" then NoRefreshCookie
    else match refresh(refreshCookie.value)
      case RefreshThrew => Failed
      case RefreshResponse(refreshStatus, token) =>
        if !IsOk(refreshStatus) then RefreshRejected
        else if token.Some? then Refreshed(token.value)
        else Failed
  }

  /** The branch structure of `initializeAuth`, given what each call returns. */
  function InitPathOf(me: MeOutcome, refreshCookie: Option<string>, refresh: string -> RefreshOutcome): (path: InitPath)
    ensures path.SignedIn? ==> me.MeResponse? && IsOk(me.status) && me.body == Some(path.user)
    ensures me.MeResponse? && IsOk(me.status) && me.body.Some? ==> path == SignedIn(me.body.value)
    ensures me.MeResponse? && IsOk(me.status) && me.body.None? ==> path == Failed
    ensures me.MeResponse? && me.status == 401 ==> path == RefreshPathOf(refreshCookie, refresh)
    ensures (me.MeThrew? || (!IsOk(me.status) && me.status != 401)) ==> path == Failed
  {
    match me
    case MeThrew => Failed
    case MeResponse(status, body) =>
      if IsOk(status) then
        (if body.Some? then SignedIn(body.value) else Failed)
      else if status == 401 then RefreshPathOf(refreshCookie, refresh)
      else Failed
  }

  /** `InitPathOf` for the calls as the store makes them: the access cookie in the
      `Authorization` header, and the refresh cookie in the refresh request. */
  function InitPathFor(jar: Jar, me: string -> MeOutcome, refresh: string -> RefreshOutcome): InitPath {
    InitPathOf(me(BearerHeader(CookieValue(jar, AccessCookie))), CookieValue(jar, RefreshCookie), refresh)
  }

  /** The store state, the cookies and the requested navigation together. */
  datatype Settled = Settled(session: Session, cookies: Jar, effects: seq<Effect>)

  /** Where each path of `initializeAuth` leaves the store, the cookies and the
      navigation, from the state `s`, the jar `jar` and the effects so far. */
  function Settle(path: InitPath, secure: bool, s: Session, jar: Jar, effects: seq<Effect>): (r: Settled)
    ensures path.SignedIn? ==>
      && r.session == s.(user := Authenticated(path.user), isLoggedIn := true)
      && r.cookies == jar
    ensures path.Refreshed? ==>
      && r.session == s
      && r.cookies == WithCookie(jar, AccessCookie, path.accessToken, AccessExpiry, secure)
    ensures path.FallsBackToGuest() ==> r.session == LoggedOut(s) && r.cookies == WithoutCredentials(jar)
    ensures effects <= r.effects && |r.effects| <= |effects| + 1
    ensures Reload in r.effects[|effects|..] <==> path.Refreshed?
    ensures Navigate("/login") in r.effects[|effects|..] <==> path == RefreshRejected
    ensures !path.Refreshed? && !path.RefreshRejected? ==> r.effects == effects
  {
    match path
    case SignedIn(u) => Settled(s.(user := Authenticated(u), isLoggedIn := true), jar, effects)
    case Refreshed(token) => Settled(s, WithCookie(jar, AccessCookie, token, AccessExpiry, secure), effects + [Reload])
    case RefreshRejected => Settled(LoggedOut(s), WithoutCredentials(jar), effects + [Navigate("/login")])
    case _ => Settled(LoggedOut(s), WithoutCredentials(jar), effects)
  }

  /** After `initializeAuth` the store holds a user on every path but one: after a
      successful refresh the user is whatever it was before (`null` on a cold
      start); the reload that follows runs the initialisation again. */
  lemma UserSetUnlessRefreshed(path: InitPath, secure: bool, s: Session, jar: Jar, effects: seq<Effect>)
    ensures !path.Refreshed? ==> Settle(path, secure, s, jar, effects).session.user != NoUser
    ensures path.Refreshed? ==> Settle(path, secure, s, jar, effects).session.user == s.user
  {
  }

  /** Signed in exactly when `/users/me` accepted the access cookie: no path but
      that one leaves the store logged in unless it was logged in before. */
  lemma LoggedInOnlyBySignIn(path: InitPath, secure: bool, s: Session, jar: Jar, effects: seq<Effect>)
    requires !s.isLoggedIn
    ensures Settle(path, secure, s, jar, effects).session.isLoggedIn <==> path.SignedIn?
  {
  }

  /** A thrown request, a body that is not JSON and an unexpected status all land
      in the same guest fallback, with no navigation. */
  lemma FailuresFallBackQuietly(me: MeOutcome, refreshCookie: Option<string>, refresh: string -> RefreshOutcome,
                                secure: bool, s: Session, jar: Jar, effects: seq<Effect>)
    requires me.MeThrew? || (IsOk(me.status) && me.body.None?) || (!IsOk(me.status) && me.status != 401)
    ensures Settle(InitPathOf(me, refreshCookie, refresh), secure, s, jar, effects)
         == Settled(LoggedOut(s), WithoutCredentials(jar), effects)
  {
  }

  /** `Settle` passes `isInitializing` through, so where it starts does not matter. */
  lemma SettleIgnoresInitializing(path: InitPath, secure: bool, s: Session, jar: Jar, effects: seq<Effect>)
    ensures var r := Settle(path, secure, s.(isInitializing := true), jar, effects);
            var t := Settle(path, secure, s, jar, effects);
            r.session.(isInitializing := false) == t.session.(isInitializing := false)
            && r.cookies == t.cookies && r.effects == t.effects
  {
  }

  /** The states published while `initializeAuth` runs all carry the flag
      `initializing`, and the earlier history is kept. */
  ghost predicate Extends(before: seq<Session>, after: seq<Session>, initializing: bool) {
    && |before| <= |after| && after[..|before|] == before
    && forall k :: |before| <= k < |after| ==> after[k].isInitializing == initializing
  }

  /** The isInitializing bracket: among the states published from `start` on, the
      first sets the flag, every one but the last has it set, and the last clears it. */
  ghost predicate InitializingBracket(history: seq<Session>, start: nat) {
    && start + 2 <= |history|
    && (forall k :: start <= k < |history| - 1 ==> history[k].isInitializing)
    && !history[|history| - 1].isInitializing
  }

  /** A history that opens with a state carrying the flag, keeps it set while
      it grows, and then publishes one state without it, is bracketed from where
      it opened; what came before is untouched. */
  lemma CloseBracket(before: seq<Session>, opening: Session, middle: seq<Session>, closing: Session)
    requires opening.isInitializing && !closing.isInitializing
    requires Extends(before + [opening], middle, true)
    ensures InitializingBracket(middle + [closing], |before|)
    ensures (middle + [closing])[..|before|] == before
  {
    var h := middle + [closing];
    forall k | |before| <= k < |h| - 1
      ensures h[k].isInitializing
    {
      if k == |before| {
        assert h[k] == (before + [opening])[k];
      }
    }
    assert h[..|before|] == middle[..|before + [opening]|][..|before|];
  }

  // ---------------------------------------------------------------------------
  // The store

  class Store {
    var isLoggedIn: bool
    var refreshToken: Option<string>
    var accessToken: Option<string>
    var user: AuthUser
    var isInitializing: bool
    var isSidebarCollapsed: bool
    /** The browser's cookies. */
    var cookies: Jar
    /** Reloads and router pushes requested so far, in order. */
    var effects: seq<Effect>
    /** The `secure` cookie attribute: `process.env.NODE_ENV === 'production'`. */
    const production: bool
    /** Every state the store has published to its subscribers: one entry per
        `set` that produced a new state. */
    ghost var published: seq<Session>

    function Snapshot(): Session
      reads this
    {
      Session(isLoggedIn, refreshToken, accessToken, user, isInitializing, isSidebarCollapsed)
    }

    /** The store as created, next to the cookies the browser already holds. */
    constructor (production: bool, jar: Jar)
      ensures Snapshot() == InitialSession && cookies == jar && effects == [] && published == []
      ensures this.production == production
    {
      isLoggedIn, refreshToken, accessToken, user := false, None, None, NoUser;
      isInitializing, isSidebarCollapsed := false, true;
      cookies, effects := jar, [];
      this.production := production;
      published := [];
    }

    /** `logout`: both cookies removed, then a guest, logged out, with no tokens. */
    method Logout()
      modifies this
      ensures Snapshot() == LoggedOut(old(Snapshot()))
      ensures cookies == WithoutCredentials(old(cookies)) && effects == old(effects)
      ensures published == old(published) + [Snapshot()]
    {
      cookies := cookies - {RefreshCookie};
      cookies := cookies - {AccessCookie};
      user, isLoggedIn, refreshToken, accessToken := Guest(DefaultGuestUser), false, None, None;
      published := published + [Snapshot()];
      assert cookies == WithoutCredentials(old(cookies));
    }

    /** `login`: the refresh cookie (expiry 4320) and the access cookie (expiry
        420) are written, so the refresh cookie outlives the access cookie; then
        the user is signed in with both tokens. */
    method Login(userData: User, refresh: string, access: string)
      modifies this
      ensures cookies == WithCookie(WithCookie(old(cookies), RefreshCookie, refresh, RefreshExpiry, production),
                                    AccessCookie, access, AccessExpiry, production)
      ensures cookies[RefreshCookie].expires > cookies[AccessCookie].expires
      ensures Snapshot() == old(Snapshot()).(user := Authenticated(userData), isLoggedIn := true,
                                             refreshToken := Some(refresh), accessToken := Some(access))
      ensures effects == old(effects) && published == old(published) + [Snapshot()]
    {
      cookies := WithCookie(cookies, RefreshCookie, refresh, RefreshExpiry, production);
      cookies := WithCookie(cookies, AccessCookie, access, AccessExpiry, production);
      user, isLoggedIn, refreshToken, accessToken := Authenticated(userData), true, Some(refresh), Some(access);
      published := published + [Snapshot()];
    }

    /** `updateUserUsage`: only the user changes, as `UserUsageUpdated` says. When
        the guard fails the updater returns the state itself and nothing is published. */
    method UpdateUserUsage(newUsage: UsageMetrics, now: string)
      modifies this
      ensures Snapshot() == old(Snapshot()).(user := UserUsageUpdated(old(user), newUsage, now))
      ensures cookies == old(cookies) && effects == old(effects)
      ensures published == old(published) + (if old(user).Authenticated? then [Snapshot()] else [])
    {
      if user != NoUser && PlanTypeOf(user) != Some(GuestPlan) {
        user := Authenticated(user.user.(usageMetrics := newUsage, updatedAt := now));
        published := published + [Snapshot()];
      }
    }

    /** `updateGuestUsage`: only the user changes, as `GuestUsageUpdated` says. When
        the guard fails the updater returns the state itself and nothing is published. */
    method UpdateGuestUsage(processedToday: int)
      modifies this
      ensures Snapshot() == old(Snapshot()).(user := GuestUsageUpdated(old(user), processedToday))
      ensures cookies == old(cookies) && effects == old(effects)
      ensures published == old(published) + (if old(user).Guest? then [Snapshot()] else [])
    {
      if user != NoUser && PlanTypeOf(user) == Some(GuestPlan) {
        user := Guest(user.guest.(usageMetrics := user.guest.usageMetrics.(pdfProcessedToday := processedToday)));
        published := published + [Snapshot()];
      }
    }

    /** The guest fallback of `initializeAuth`: `set({user: defaultGuestUser,
        isLoggedIn: false})` and then `logout()`, whose body runs to its end
        before the unawaited promise is dropped. */
    method FallBackToGuest()
      modifies this
      ensures Snapshot() == LoggedOut(old(Snapshot()))
      ensures cookies == WithoutCredentials(old(cookies)) && effects == old(effects)
      ensures Extends(old(published), published, old(isInitializing))
      ensures published == old(published)
                           + [old(Snapshot()).(user := Guest(DefaultGuestUser), isLoggedIn := false), Snapshot()]
    {
      user, isLoggedIn := Guest(DefaultGuestUser), false;
      published := published + [Snapshot()];
      Logout();
    }

    /** The 401 branch of `initializeAuth`, from reading the refresh cookie on. */
    method RefreshSession(refresh: string -> RefreshOutcome)
      modifies this
      ensures Settled(Snapshot(), cookies, effects)
           == Settle(RefreshPathOf(CookieValue(old(cookies), RefreshCookie), refresh), production,
                     old(Snapshot()), old(cookies), old(effects))
      ensures Extends(old(published), published, old(isInitializing))
    {
      var refreshCookie := CookieValue(cookies, RefreshCookie);
      if refreshCookie.None? || refreshCookie.value == "" {
        FallBackToGuest();
        return;
      }
      var refreshResponse := refresh(refreshCookie.value);
      match refreshResponse {
        case RefreshThrew =>
          FallBackToGuest();
        case RefreshResponse(refreshStatus, token) =>
          if !IsOk(refreshStatus) {
            FallBackToGuest();
            effects := effects + [Navigate("/login")];
          } else if token.Some? {
            cookies := WithCookie(cookies, AccessCookie, token.value, AccessExpiry, production);
            effects := effects + [Reload];
          } else {
            FallBackToGuest();
          }
      }
    }

    /** The body of the `try` in `initializeAuth`, from the answer of `/users/me` on. */
    method CheckSession(response: MeOutcome, refresh: string -> RefreshOutcome)
      modifies this
      ensures Settled(Snapshot(), cookies, effects)
           == Settle(InitPathOf(response, CookieValue(old(cookies), RefreshCookie), refresh), production,
                     old(Snapshot()), old(cookies), old(effects))
      ensures Extends(old(published), published, old(isInitializing))
    {
      match response {
        case MeThrew =>
          FallBackToGuest();
        case MeResponse(status, body) =>
          if IsOk(status) && body.Some? {
            user, isLoggedIn := Authenticated(body.value), true;
            published := published + [Snapshot()];
          } else if status == 401 {
            RefreshSession(refresh);
          } else {
            FallBackToGuest();
          }
      }
    }

    /** `initializeAuth`, for the two backend calls given as functions of what the
        store sends them. The store, the cookies and the navigation end as `Settle`
        says for the path the answers select; `isInitializing` is set by the first
        state published and cleared by the last, on every path. */
    method InitializeAuth(me: string -> MeOutcome, refresh: string -> RefreshOutcome)
      modifies this
      ensures var r := Settle(InitPathFor(old(cookies), me, refresh), production, old(Snapshot()), old(cookies), old(effects));
              Snapshot() == r.session.(isInitializing := false) && cookies == r.cookies && effects == r.effects
      ensures InitializingBracket(published, |old(published)|) && published[..|old(published)|] == old(published)
      ensures published[|published| - 1] == Snapshot()
    {
      ghost var s0 := Snapshot();
      isInitializing := true;
      published := published + [Snapshot()];
      var response := me(BearerHeader(CookieValue(cookies, AccessCookie)));
      ghost var path := InitPathFor(old(cookies), me, refresh);
      assert path == InitPathOf(response, CookieValue(old(cookies), RefreshCookie), refresh);
      CheckSession(response, refresh);
      ghost var t := Settle(path, production, s0, old(cookies), old(effects));
      assert Snapshot().(isInitializing := false) == t.session.(isInitializing := false)
             && cookies == t.cookies && effects == t.effects by {
        SettleIgnoresInitializing(path, production, s0, old(cookies), old(effects));
      }
      ghost var middle := published;
      isInitializing := false;
      published := published + [Snapshot()];
      CloseBracket(old(published), s0.(isInitializing := true), middle, Snapshot());
    }
  }
}
