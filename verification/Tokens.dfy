/**
 * Login tokens with sliding expiry (internal/auth/store.go) and the web
 * authentication in front of every request (internal/auth/middleware.go).  Tokens
 * stand for their hashes; clock readings are in milliseconds.
 */
module Tokens {
  import opened Basics

  const TOKEN_TTL_MS := 7 * 24 * 60 * 60 * 1000
  const RENEW_THRESHOLD_MS := 24 * 60 * 60 * 1000
  const COOKIE_MAX_AGE := 7 * 24 * 60 * 60

  datatype Token = Token(userId: int, expiresAt: int)

  datatype Validation = Invalid | Valid(userId: int, renewed: bool)

  /** ValidateAndMaybeRenew on a row: the answer, and the row afterwards. */
  function Check(t: Token, now: int, writeOk: bool): (Validation, Option<Token>) {
    if now > t.expiresAt then (Invalid, None)
    else if t.expiresAt - now < RENEW_THRESHOLD_MS && writeOk
    then (Valid(t.userId, true), Some(t.(expiresAt := now + TOKEN_TTL_MS)))
    else (Valid(t.userId, false), Some(t))
  }

  // ---- the table of tokens --------------------------------------------------------------------

  datatype Auth = Auth(users: set<int>, tokens: map<string, Token>)

  /** What happens to the store; `raw` is the token meant. */
  datatype AuthStep =
    | Register(userId: int)
    | Create(raw: string, userId: int, now: int)
    | Validate(raw: string, now: int)
    | Renew(raw: string, now: int, writeOk: bool)
    | Revoke(raw: string)

  /** The join of a token with its user. */
  function Owned(a: Auth, raw: string): Option<Token> {
    if raw in a.tokens && a.tokens[raw].userId in a.users then Some(a.tokens[raw]) else None
  }

  predicate Accepts(a: Auth, raw: string, now: int) {
    Owned(a, raw).Some? && now <= Owned(a, raw).value.expiresAt
  }

  function NextAuth(a: Auth, step: AuthStep): Auth {
    match step
    case Register(userId) => a.(users := a.users + {userId})
    case Create(raw, userId, now) => a.(tokens := a.tokens[raw := Token(userId, now + TOKEN_TTL_MS)])
    case Validate(raw, now) =>
      if Owned(a, raw).Some? && !Accepts(a, raw, now) then a.(tokens := a.tokens - {raw}) else a
    case Renew(raw, now, writeOk) =>
      if Owned(a, raw).None? then a
      else
        match Check(Owned(a, raw).value, now, writeOk).1 {
          case None => a.(tokens := a.tokens - {raw})
          case Some(t) => a.(tokens := a.tokens[raw := t])
        }
    case Revoke(raw) => a.(tokens := a.tokens - {raw})
  }

  function RunAuth(a: Auth, steps: seq<AuthStep>): Auth
    decreases |steps|
  {
    if steps == [] then a else RunAuth(NextAuth(a, steps[0]), steps[1..])
  }

  class Store {
    var users: set<int>
    var tokens: map<string, Token>

    function Now(): Auth
      reads this
    {
      Auth(users, tokens)
    }

    /** CreateToken; `raw` is the fresh random token. */
    method CreateToken(raw: string, userId: int, now: int)
      requires raw !in tokens
      modifies this`tokens
      ensures Now() == NextAuth(old(Now()), Create(raw, userId, now))
    {
      var expiresAt := now + TOKEN_TTL_MS;
      tokens := tokens[raw := Token(userId, expiresAt)];
    }

    /** ValidateToken, which does not renew. */
    method ValidateToken(raw: string, now: int) returns (user: Option<int>)
      modifies this`tokens
      ensures user.Some? <==> Accepts(old(Now()), raw, now)
      ensures user.Some? ==> user.value == old(tokens)[raw].userId
      ensures Now() == NextAuth(old(Now()), Validate(raw, now))
    {
      if raw !in tokens || tokens[raw].userId !in users {
        return None;
      }
      if now > tokens[raw].expiresAt {
        tokens := tokens - {raw};
        return None;
      }
      return Some(tokens[raw].userId);
    }

    /** `writeOk` says whether the UPDATE succeeds. */
    method ValidateAndMaybeRenew(raw: string, now: int, writeOk: bool) returns (v: Validation)
      modifies this`tokens
      ensures v.Valid? <==> Accepts(old(Now()), raw, now)
      ensures v.Valid? ==> v == Check(old(tokens)[raw], now, writeOk).0
      ensures Now() == NextAuth(old(Now()), Renew(raw, now, writeOk))
    {
      if raw !in tokens || tokens[raw].userId !in users {
        return Invalid;
      }
      var t := tokens[raw];
      if now > t.expiresAt {
        tokens := tokens - {raw};
        return Invalid;
      }
      var renewed := false;
      if t.expiresAt - now < RENEW_THRESHOLD_MS {
        var newExpiry := now + TOKEN_TTL_MS;
        if writeOk {
          tokens := tokens[raw := t.(expiresAt := newExpiry)];
          renewed := true;
        }
      }
      return Valid(t.userId, renewed);
    }

    method RevokeToken(raw: string)
      modifies this`tokens
      ensures Now() == NextAuth(old(Now()), Revoke(raw))
    {
      tokens := tokens - {raw};
    }
  }

  // ---- runs of the store ----------------------------------------------------------------------

  predicate IsAbout(step: AuthStep, raw: string) {
    !step.Register? && step.raw == raw
  }

  /** The steps about one token, and the registrations. */
  function StepsAbout(steps: seq<AuthStep>, raw: string): seq<AuthStep>
    decreases |steps|
  {
    if steps == [] then []
    else (if steps[0].Register? || IsAbout(steps[0], raw) then [steps[0]] else []) + StepsAbout(steps[1..], raw)
  }

  predicate SameToken(a: Auth, b: Auth, raw: string) {
    a.users == b.users && (raw in a.tokens <==> raw in b.tokens) && (raw in a.tokens ==> a.tokens[raw] == b.tokens[raw])
  }

  lemma NextSameToken(a: Auth, b: Auth, step: AuthStep, raw: string)
    requires SameToken(a, b, raw)
    ensures SameToken(NextAuth(a, step), if step.Register? || IsAbout(step, raw) then NextAuth(b, step) else b, raw)
  {
  }

  /** A token is affected by its own steps only, whatever happens to the others in between. */
  lemma {:induction false} TokensAreSeparate(a: Auth, b: Auth, steps: seq<AuthStep>, raw: string)
    requires SameToken(a, b, raw)
    ensures SameToken(RunAuth(a, steps), RunAuth(b, StepsAbout(steps, raw)), raw)
    decreases |steps|
  {
    hide SameToken, NextAuth;
    if steps != [] {
      NextSameToken(a, b, steps[0], raw);
      var rest := StepsAbout(steps[1..], raw);
      if steps[0].Register? || IsAbout(steps[0], raw) {
        assert ([steps[0]] + rest)[1..] == rest;
        TokensAreSeparate(NextAuth(a, steps[0]), NextAuth(b, steps[0]), steps[1..], raw);
      } else {
        assert [] + rest == rest;
        TokensAreSeparate(NextAuth(a, steps[0]), b, steps[1..], raw);
      }
    }
  }

  predicate Creates(steps: seq<AuthStep>, raw: string) {
    exists i :: 0 <= i < |steps| && steps[i].Create? && steps[i].raw == raw
  }

  lemma {:induction false} AbsentUntilCreated(a: Auth, steps: seq<AuthStep>, raw: string)
    requires raw !in a.tokens && !Creates(steps, raw)
    ensures raw !in RunAuth(a, steps).tokens
    decreases |steps|
  {
    if steps != [] {
      AbsentUntilCreated(NextAuth(a, steps[0]), steps[1..], raw);
    }
  }

  /** A token that was ended is never accepted until it is created again. */
  lemma EndedUntilCreated(a: Auth, step: AuthStep, steps: seq<AuthStep>, raw: string, now: int)
    requires || step == Revoke(raw)
             || (step.Validate? && step.raw == raw && Owned(a, raw).Some? && !Accepts(a, raw, step.now))
             || (step.Renew? && step.raw == raw && Owned(a, raw).Some? && !Accepts(a, raw, step.now))
    requires forall i :: 0 <= i < |steps| && steps[i].Create? ==> steps[i].raw != raw
    ensures !Accepts(RunAuth(NextAuth(a, step), steps), raw, now)
  {
    AbsentUntilCreated(NextAuth(a, step), steps, raw);
  }

  // ---- one login ------------------------------------------------------------------------------

  /** What the server and the browser hold of one login: the row, and until when the cookie is sent. */
  datatype Login = Login(row: Option<Token>, cookieUntil: int)

  function LoggedIn(userId: int, now: int): Login {
    Login(Some(Token(userId, now + TOKEN_TTL_MS)), now + COOKIE_MAX_AGE * 1000)
  }

  /** Is a request at this time let through? */
  predicate Admitted(l: Login, now: int) {
    now <= l.cookieUntil && l.row.Some? && Check(l.row.value, now, true).0.Valid?
  }

  /** A request through WebAuth, with one clock reading and a successful write; an expired cookie is not sent. */
  function Visit(l: Login, now: int): Login {
    if now > l.cookieUntil || l.row.None? then l
    else
      var (v, row) := Check(l.row.value, now, true);
      Login(row, if v.Valid? && v.renewed then now + COOKIE_MAX_AGE * 1000 else l.cookieUntil)
  }

  /** webAuthRawToken: the cookie while it is sent, else the bearer header's token, else "". */
  function RawToken(cookie: string, cookieUntil: int, bearer: Option<string>, now: int): string {
    if cookie != "" && now <= cookieUntil then cookie else bearer.GetOr<string>("")
  }

  class Browser {
    var cookie: string
    var cookieUntil: int

    /** What browser and server hold of the login whose token is in the cookie. */
    function LoginAt(store: Store): Login
      reads this, store
    {
      Login(Owned(store.Now(), cookie), cookieUntil)
    }

    /** SetSessionCookie. */
    method SetCookie(raw: string, now: int)
      modifies this
      ensures cookie == raw && cookieUntil == now + COOKIE_MAX_AGE * 1000
    {
      cookie, cookieUntil := raw, now + COOKIE_MAX_AGE * 1000;
    }

    /** The end of handleLogin, for the user found; `raw` is the fresh random token. */
    method LogIn(store: Store, raw: string, userId: int, now: int)
      requires raw !in store.tokens && userId in store.users
      modifies this, store`tokens
      ensures LoginAt(store) == LoggedIn(userId, now) && cookie == raw
      ensures store.Now() == NextAuth(old(store.Now()), Create(raw, userId, now))
    {
      store.CreateToken(raw, userId, now);
      SetCookie(raw, now);
    }

    /** WebAuth: validate the token presented, and set it as the cookie when it was renewed. */
    method Request(store: Store, bearer: Option<string>, now: int, writeOk: bool) returns (ok: bool)
      modifies this, store`tokens
      ensures var raw := RawToken(old(cookie), old(cookieUntil), bearer, now);
              && (ok <==> raw != "" && Accepts(old(store.Now()), raw, now))
              && store.Now() == (if raw == "" then old(store.Now())
                                 else NextAuth(old(store.Now()), Renew(raw, now, writeOk)))
              && if ok && writeOk && old(store.tokens)[raw].expiresAt - now < RENEW_THRESHOLD_MS
                 then cookie == raw && cookieUntil == now + COOKIE_MAX_AGE * 1000
                 else cookie == old(cookie) && cookieUntil == old(cookieUntil)
      ensures bearer.None? && writeOk && old(cookie) != "" && old(LoginAt(store)).row.Some? ==>
                ok == Admitted(old(LoginAt(store)), now) && LoginAt(store) == Visit(old(LoginAt(store)), now)
    {
      var raw := "";
      if cookie != "" && now <= cookieUntil {
        raw := cookie;
      } else if bearer.Some? {
        raw := bearer.value;
      }
      if raw == "" {
        return false;
      }
      var v := store.ValidateAndMaybeRenew(raw, now, writeOk);
      if v.Invalid? {
        return false;
      }
      if v.renewed {
        SetCookie(raw, now);
      }
      return true;
    }

    /** handleLogout: revoke the token presented and clear the cookie. */
    method LogOut(store: Store, bearer: Option<string>, now: int)
      modifies this, store`tokens
      ensures cookie == ""
      ensures var raw := RawToken(old(cookie), old(cookieUntil), bearer, now);
              store.Now() == if raw == "" && bearer.None? then old(store.Now())
                             else NextAuth(old(store.Now()), Revoke(raw))
    {
      if cookie != "" && now <= cookieUntil {
        store.RevokeToken(cookie);
      } else if bearer.Some? {
        store.RevokeToken(bearer.value);
      }
      cookie := "";
    }
  }

  // ---- runs of requests ---------------------------------------------------------------------------

  /** Requests at most `gap` apart, starting after a login at `from`. */
  predicate GapsWithin(from: int, times: seq<int>, gap: int)
    decreases |times|
  {
    times == [] || (0 <= times[0] - from <= gap && GapsWithin(times[0], times[1..], gap))
  }

  predicate GapAt(from: int, times: seq<int>, gap: int, i: nat)
    requires i < |times|
  {
    var before := if i == 0 then from else times[i - 1];
    before <= times[i] && times[i] - before <= gap
  }

  /** Each request comes at or after the one before it, and not too long after. */
  lemma {:induction false} GapsWithinIff(from: int, times: seq<int>, gap: int)
    ensures GapsWithin(from, times, gap) <==> forall i :: 0 <= i < |times| ==> GapAt(from, times, gap, i)
    decreases |times|
  {
    if times != [] {
      var rest := times[1..];
      GapsWithinIff(times[0], rest, gap);
      assert GapAt(from, times, gap, 0) <==> 0 <= times[0] - from <= gap;
      assert forall i :: 0 <= i < |rest| ==> (GapAt(times[0], rest, gap, i) <==> GapAt(from, times, gap, i + 1));
      assert forall i :: 0 < i < |times| ==> (GapAt(from, times, gap, i) <==> GapAt(times[0], rest, gap, i - 1));
    }
  }

  /** Registering lets a user's tokens be accepted. */
  lemma RegisteredOwns(a: Auth, raw: string)
    requires raw in a.tokens
    ensures Owned(NextAuth(a, Register(a.tokens[raw].userId)), raw) == Some(a.tokens[raw])
  {
  }

  function Visits(l: Login, times: seq<int>): Login
    decreases |times|
  {
    if times == [] then l else Visits(Visit(l, times[0]), times[1..])
  }

  predicate AllAdmitted(l: Login, times: seq<int>)
    decreases |times|
  {
    times == [] || (Admitted(l, times[0]) && AllAdmitted(Visit(l, times[0]), times[1..]))
  }

  function Last(from: int, times: seq<int>): int {
    if times == [] then from else times[|times| - 1]
  }

  /** After a request at `now` there is at least a day left, at most seven, and the cookie ends with the token. */
  predicate Settled(l: Login, now: int) {
    && l.row.Some? && l.cookieUntil == l.row.value.expiresAt
    && RENEW_THRESHOLD_MS <= l.row.value.expiresAt - now <= TOKEN_TTL_MS
  }

  lemma {:induction false} RequestsKeepAlive(l: Login, from: int, times: seq<int>)
    requires Settled(l, from) && GapsWithin(from, times, RENEW_THRESHOLD_MS)
    ensures AllAdmitted(l, times) && Settled(Visits(l, times), Last(from, times))
    decreases |times|
  {
    if times != [] {
      RequestsKeepAlive(Visit(l, times[0]), times[0], times[1..]);
    }
  }

  /**
   * Over any run of requests at most a day apart the token is never rejected, its
   * expiry never exceeds seven days from the last request, and the cookie expires
   * with it.
   */
  lemma ActiveUserStaysLoggedIn(userId: int, from: int, times: seq<int>)
    requires GapsWithin(from, times, 86_400_000)
    ensures AllAdmitted(LoggedIn(userId, from), times)
    ensures var l := Visits(LoggedIn(userId, from), times);
            && l.row.Some? && l.cookieUntil == l.row.value.expiresAt
            && l.row.value.expiresAt <= Last(from, times) + 604_800_000
  {
    RequestsKeepAlive(LoggedIn(userId, from), from, times);
  }

  // ---- one login among others -----------------------------------------------------------------------

  /** When requests with this token arrive. */
  function TimesOf(steps: seq<AuthStep>, raw: string): seq<int>
    decreases |steps|
  {
    if steps == [] then []
    else (if steps[0].Renew? && steps[0].raw == raw then [steps[0].now] else []) + TimesOf(steps[1..], raw)
  }

  /** Nothing happens to the token but requests, whose writes succeed. */
  predicate OnlyRequests(steps: seq<AuthStep>, raw: string) {
    forall i :: 0 <= i < |steps| && IsAbout(steps[i], raw) ==> steps[i].Renew? && steps[i].writeOk
  }

  /** The store's side of Settled. */
  predicate Lasts(a: Auth, raw: string, from: int) {
    Owned(a, raw).Some? && RENEW_THRESHOLD_MS <= Owned(a, raw).value.expiresAt - from <= TOKEN_TTL_MS
  }

  lemma NextLasts(a: Auth, step: AuthStep, raw: string, from: int)
    requires Lasts(a, raw, from)
    requires IsAbout(step, raw) ==> step.Renew? && step.writeOk && 0 <= step.now - from <= RENEW_THRESHOLD_MS
    ensures Lasts(NextAuth(a, step), raw, if IsAbout(step, raw) then step.now else from)
  {
  }

  lemma {:induction false} RequestsLast(a: Auth, steps: seq<AuthStep>, raw: string, from: int)
    requires Lasts(a, raw, from) && OnlyRequests(steps, raw)
    requires GapsWithin(from, TimesOf(steps, raw), RENEW_THRESHOLD_MS)
    ensures Lasts(RunAuth(a, steps), raw, Last(from, TimesOf(steps, raw)))
    decreases |steps|
  {
    hide Lasts, NextAuth;
    if steps != [] {
      var rest := TimesOf(steps[1..], raw);
      assert OnlyRequests(steps[1..], raw);
      if IsAbout(steps[0], raw) {
        assert ([steps[0].now] + rest)[1..] == rest;
        NextLasts(a, steps[0], raw, from);
        RequestsLast(NextAuth(a, steps[0]), steps[1..], raw, steps[0].now);
      } else {
        assert [] + rest == rest;
        NextLasts(a, steps[0], raw, from);
        RequestsLast(NextAuth(a, steps[0]), steps[1..], raw, from);
      }
    }
  }

  /**
   * However the logins, requests and logouts of other users interleave, a user whose
   * requests are at most a day apart is let through a day after the last of them.
   */
  lemma LoginSurvivesOthers(a: Auth, raw: string, userId: int, from: int, steps: seq<AuthStep>, now: int)
    requires userId in a.users && GapsWithin(from, TimesOf(steps, raw), 86_400_000)
    requires forall i :: 0 <= i < |steps| && !steps[i].Register? && steps[i].raw == raw ==>
               steps[i].Renew? && steps[i].writeOk
    requires now <= Last(from, TimesOf(steps, raw)) + 86_400_000
    ensures Accepts(RunAuth(NextAuth(a, Create(raw, userId, from)), steps), raw, now)
  {
    RequestsLast(NextAuth(a, Create(raw, userId, from)), steps, raw, from);
  }

  // ---- the gap is tight -----------------------------------------------------------------------------

  const DAY := RENEW_THRESHOLD_MS

  /** A request a day for six days leaves exactly a day, which is not renewed. */
  lemma SixQuietDays(userId: int, gap: int)
    requires gap > DAY
    ensures GapsWithin(0, [DAY, 2 * DAY, 3 * DAY, 4 * DAY, 5 * DAY, 6 * DAY, 6 * DAY + gap], gap)
    ensures !AllAdmitted(LoggedIn(userId, 0), [DAY, 2 * DAY, 3 * DAY, 4 * DAY, 5 * DAY, 6 * DAY, 6 * DAY + gap])
  {
    var l := LoggedIn(userId, 0);
    var t7 := [6 * DAY + gap];
    var t6 := [6 * DAY] + t7;
    var t5 := [5 * DAY] + t6;
    var t4 := [4 * DAY] + t5;
    var t3 := [3 * DAY] + t4;
    var t2 := [2 * DAY] + t3;
    var t1 := [DAY] + t2;
    assert t1 == [DAY, 2 * DAY, 3 * DAY, 4 * DAY, 5 * DAY, 6 * DAY, 6 * DAY + gap];
    assert t1[1..] == t2 && t2[1..] == t3 && t3[1..] == t4 && t4[1..] == t5 && t5[1..] == t6 && t6[1..] == t7;
    assert t7[1..] == [];
    assert Visit(l, DAY) == l && Visit(l, 2 * DAY) == l && Visit(l, 3 * DAY) == l && Visit(l, 4 * DAY) == l
        && Visit(l, 5 * DAY) == l && Visit(l, 6 * DAY) == l;
    assert GapsWithin(6 * DAY, t7, gap);
    assert GapsWithin(5 * DAY, t6, gap);
    assert GapsWithin(4 * DAY, t5, gap);
    assert GapsWithin(3 * DAY, t4, gap);
    assert GapsWithin(2 * DAY, t3, gap);
    assert GapsWithin(DAY, t2, gap);
    assert !Admitted(l, 6 * DAY + gap);
    assert !AllAdmitted(l, t7);
    assert !AllAdmitted(l, t6);
    assert !AllAdmitted(l, t5);
    assert !AllAdmitted(l, t4);
    assert !AllAdmitted(l, t3);
    assert !AllAdmitted(l, t2);
  }

  /** Gaps up to this long never cost a login. */
  ghost predicate SafeGap(gap: int) {
    forall userId: int, from: int, times: seq<int> {:trigger AllAdmitted(LoggedIn(userId, from), times)} ::
      GapsWithin(from, times, gap) ==> AllAdmitted(LoggedIn(userId, from), times)
  }

  /** A day is exactly how long an active user may pause. */
  lemma SafeGapIff(gap: int)
    ensures SafeGap(gap) <==> gap <= 86_400_000
  {
    if gap <= RENEW_THRESHOLD_MS {
      forall userId: int, from: int, times: seq<int> | GapsWithin(from, times, gap)
        ensures AllAdmitted(LoggedIn(userId, from), times)
      {
        SmallerGaps(from, times, gap);
        ActiveUserStaysLoggedIn(userId, from, times);
      }
    } else {
      SixQuietDays(0, gap);
    }
  }

  lemma {:induction false} SmallerGaps(from: int, times: seq<int>, gap: int)
    requires GapsWithin(from, times, gap) && gap <= RENEW_THRESHOLD_MS
    ensures GapsWithin(from, times, RENEW_THRESHOLD_MS)
    decreases |times|
  {
    if times != [] {
      SmallerGaps(times[0], times[1..], gap);
    }
  }
}
