/**
 * The admin login and session store of the server: bearer tokens with a sliding
 * one-hour expiry, and a per-IP counter of failed logins that locks the IP out
 * for fifteen minutes after the fifth failure. Both live in in-process maps,
 * swept once a minute. The clock is the `now` parameter (milliseconds) and the
 * freshly minted token is a parameter as well.
 */
module AdminAuth {
  import opened Wrappers
  import opened Text

  const SessionExpiry: nat := 3600000
  const MaxLoginAttempts: nat := 5
  const LockoutDuration: nat := 900000
  const DefaultPassword: string := "lunicar2024"

  datatype Session = Session(createdAt: nat, lastActivity: nat)

  /** A login-attempt record; `lockedUntil` is `null` until the lockout is set. */
  datatype Attempt = Attempt(count: nat, lockedUntil: Option<nat>)

  /** The password in force: the environment's value when it is a non-empty string, else the built-in default. */
  function AdminPassword(env: Option<string>): (p: string)
    ensures p != []
    ensures env.Some? && env.value != [] ==> p == env.value
  {
    if env.Some? && env.value != [] then env.value else DefaultPassword
  }

  /** A session unused for more than an hour; the middleware and the sweep use the same test. */
  predicate Idle(s: Session, now: nat) { now - s.lastActivity > SessionExpiry }

  /** The rate limiter refuses the IP. */
  predicate LockActive(a: Attempt, now: nat) { a.lockedUntil.Some? && now < a.lockedUntil.value }

  /** The rate limiter forgets the IP (the lockout has run out, boundary included). */
  predicate LockElapsed(a: Attempt, now: nat) { a.lockedUntil.Some? && now >= a.lockedUntil.value }

  /** The sweep forgets the IP (strictly after the lockout). */
  predicate LockPassed(a: Attempt, now: nat) { a.lockedUntil.Some? && now > a.lockedUntil.value }

  /** Whole minutes left in a lockout, rounded up. */
  function MinutesLeft(lockedUntil: nat, now: nat): (m: nat)
    requires now < lockedUntil
    ensures m >= 1
    ensures m * 60000 >= lockedUntil - now > (m - 1) * 60000
  {
    CeilDiv(lockedUntil - now, 60000)
  }

  /** The attempt map once the rate limiter has forgotten a lockout that has run out. */
  function Cleared(m: map<string, Attempt>, ip: string, now: nat): (r: map<string, Attempt>)
    ensures ip in m && LockElapsed(m[ip], now) ==> r == m - {ip}
    ensures !(ip in m && LockElapsed(m[ip], now)) ==> r == m
  {
    if ip in m && LockElapsed(m[ip], now) then m - {ip} else m
  }

  /** The record of an IP, or the fresh `{ count: 0, lockedUntil: null }`. */
  function Prior(m: map<string, Attempt>, ip: string): Attempt
  {
    if ip in m then m[ip] else Attempt(0, None)
  }

  /** The record after one more failed login at `now`. */
  function Failure(prior: Attempt, now: nat): (a: Attempt)
    ensures a.count == prior.count + 1
    ensures a.count >= MaxLoginAttempts ==> a.lockedUntil == Some(now + LockoutDuration)
    ensures a.count < MaxLoginAttempts ==> a.lockedUntil == prior.lockedUntil
  {
    var count := prior.count + 1;
    Attempt(count, if count >= MaxLoginAttempts then Some(now + LockoutDuration) else prior.lockedUntil)
  }

  /** What the handler answers after counting a failure. */
  function FailureReply(a: Attempt): (r: LoginReply)
    requires a.count >= MaxLoginAttempts ==> a.lockedUntil.Some?
    ensures r.LockedOut? <==> a.count >= MaxLoginAttempts
    ensures r.WrongPassword? ==> r.remaining == MaxLoginAttempts - a.count >= 1
  {
    if a.count >= MaxLoginAttempts then LockedOut(a.lockedUntil.value) else WrongPassword(MaxLoginAttempts - a.count)
  }

  /** What the rate limiter does with a login request. */
  datatype Gate = Proceed | Blocked(lockedUntil: nat, minutes: nat)

  /** The response of POST /api/admin/login. */
  datatype LoginReply =
    | LoggedIn(token: string, expiresIn: nat)      // 200
    | WrongPassword(remaining: nat)                // 401
    | LockedOut(lockedUntil: nat)                  // 429, set by this failure
    | TooManyAttempts(lockedUntil: nat, minutes: nat) // 429, from the rate limiter

  /** What the authentication middleware does with a request. */
  datatype AuthReply = Admitted | NotAuthorized | InvalidToken | SessionExpired

  /** `authorization.split(' ')[1]` for a header starting with "Bearer ", none otherwise. */
  function BearerToken(header: string): (t: Option<string>)
    ensures t.Some? <==> StartsWith(header, "Bearer ")
    ensures t.Some? ==> ' ' !in t.value
  {
    if StartsWith(header, "Bearer ") then
      var parts := Split(header, ' ');
      BearerParts(header);
      Some(parts[1])
    else None
  }

  lemma BearerParts(header: string)
    requires StartsWith(header, "Bearer ")
    ensures |Split(header, ' ')| >= 2
    ensures Split(header, ' ')[1] == Split(header[7..], ' ')[0]
  {
    assert header == "Bearer" + [' '] + header[7..];
    SplitAfterWord("Bearer", ' ', header[7..]);
  }

  /** The token a client sends comes back out of its header. */
  lemma BearerTokenRoundTrip(token: string, rest: string)
    requires ' ' !in token
    ensures BearerToken("Bearer " + token) == Some(token)
    ensures BearerToken("Bearer " + token + " " + rest) == Some(token)
  {
    var h1 := "Bearer " + token;
    assert h1[..7] == "Bearer ";
    BearerParts(h1);
    assert h1[7..] == token;
    SplitWord(token, ' ');
    var h2 := "Bearer " + token + " " + rest;
    assert h2[..7] == "Bearer ";
    BearerParts(h2);
    assert h2[7..] == token + [' '] + rest;
    SplitAfterWord(token, ' ', rest);
  }

  /** The sessions the sweep keeps. */
  function SweptSessions(m: map<string, Session>, now: nat): (r: map<string, Session>)
    ensures forall t :: t in r <==> t in m && !Idle(m[t], now)
    ensures forall t | t in r :: r[t] == m[t]
  {
    map t | t in m && !Idle(m[t], now) :: m[t]
  }

  /** The attempt records the sweep keeps. */
  function SweptAttempts(m: map<string, Attempt>, now: nat): (r: map<string, Attempt>)
    ensures forall ip :: ip in r <==> ip in m && !LockPassed(m[ip], now)
    ensures forall ip | ip in r :: r[ip] == m[ip]
  {
    map ip | ip in m && !LockPassed(m[ip], now) :: m[ip]
  }

  /** A record without a lockout is never swept, whatever the clock says. */
  lemma SweepKeepsUnlockedRecords(m: map<string, Attempt>, now: nat, ip: string)
    requires ip in m && m[ip].lockedUntil.None?
    ensures ip in SweptAttempts(m, now) && SweptAttempts(m, now)[ip] == m[ip]
  {
  }

  /** Sweeping twice at the same time is sweeping once. */
  lemma SweepIdempotent(s: map<string, Session>, a: map<string, Attempt>, now: nat)
    ensures SweptSessions(SweptSessions(s, now), now) == SweptSessions(s, now)
    ensures SweptAttempts(SweptAttempts(a, now), now) == SweptAttempts(a, now)
  {
  }

  /** At the very millisecond a lockout ends, the rate limiter drops the record but the sweep keeps it. */
  lemma LimiterAndSweepBoundary(a: Attempt, now: nat)
    requires a.lockedUntil == Some(now)
    ensures LockElapsed(a, now) && !LockPassed(a, now) && !LockActive(a, now)
  {
  }

  class AdminGuard {
    const password: string
    var sessions: map<string, Session>
    var attempts: map<string, Attempt>

    /** Every record counts at least one failure, and carries a lockout exactly from the fifth failure on. */
    predicate Valid()
      reads this
    {
      forall ip | ip in attempts ::
        1 <= attempts[ip].count && (attempts[ip].lockedUntil.Some? <==> attempts[ip].count >= MaxLoginAttempts)
    }

    /** No record counts more than five failures (kept by the login route, which runs the limiter first). */
    predicate Bounded()
      reads this
    {
      forall ip | ip in attempts :: attempts[ip].count <= MaxLoginAttempts
    }

    constructor(env: Option<string>)
      ensures password == AdminPassword(env)
      ensures sessions == map[] && attempts == map[]
      ensures Valid() && Bounded()
    {
      password := AdminPassword(env);
      sessions := map[];
      attempts := map[];
    }

    /** loginRateLimiter: refuse a locked IP, forget a lockout that has run out. */
    method RateLimit(ip: string, now: nat) returns (g: Gate)
      modifies this
      ensures sessions == old(sessions)
      ensures ip in old(attempts) && LockActive(old(attempts)[ip], now) ==>
        g == Blocked(old(attempts)[ip].lockedUntil.value, MinutesLeft(old(attempts)[ip].lockedUntil.value, now))
        && attempts == old(attempts)
      ensures ip in old(attempts) && LockElapsed(old(attempts)[ip], now) ==>
        g == Proceed && attempts == old(attempts) - {ip}
      ensures (ip !in old(attempts) || old(attempts)[ip].lockedUntil.None?) ==>
        g == Proceed && attempts == old(attempts)
      ensures old(Valid()) ==> Valid()
      ensures old(Bounded()) ==> Bounded()
    {
      g := Proceed;
      if ip in attempts {
        var attempt := attempts[ip];
        if attempt.lockedUntil.Some? && now < attempt.lockedUntil.value {
          return Blocked(attempt.lockedUntil.value, MinutesLeft(attempt.lockedUntil.value, now));
        }
        if attempt.lockedUntil.Some? && now >= attempt.lockedUntil.value {
          attempts := attempts - {ip};
        }
      }
    }

    /** The login handler proper: open a session, or count the failure and possibly lock the IP. */
    method LoginHandler(ip: string, given: string, token: string, now: nat) returns (r: LoginReply)
      modifies this
      ensures given == password ==>
        r == LoggedIn(token, SessionExpiry)
        && attempts == old(attempts) - {ip}
        && sessions == old(sessions)[token := Session(now, now)]
      ensures given != password ==>
        var a := Failure(Prior(old(attempts), ip), now);
        sessions == old(sessions) && attempts == old(attempts)[ip := a] && r == FailureReply(a)
      ensures old(Valid()) ==> Valid()
    {
      if given == password {
        attempts := attempts - {ip};
        sessions := sessions[token := Session(now, now)];
        return LoggedIn(token, SessionExpiry);
      }
      var attempt := if ip in attempts then attempts[ip] else Attempt(0, None);
      attempt := attempt.(count := attempt.count + 1);
      if attempt.count >= MaxLoginAttempts {
        attempt := attempt.(lockedUntil := Some(now + LockoutDuration));
        attempts := attempts[ip := attempt];
        return LockedOut(attempt.lockedUntil.value);
      }
      attempts := attempts[ip := attempt];
      r := WrongPassword(MaxLoginAttempts - attempt.count);
    }

    /** POST /api/admin/login: the rate limiter, then the handler if the limiter lets the request through. */
    method Login(ip: string, given: string, token: string, now: nat) returns (r: LoginReply)
      modifies this
      ensures ip in old(attempts) && LockActive(old(attempts)[ip], now) ==>
        var until := old(attempts)[ip].lockedUntil.value;
        r == TooManyAttempts(until, MinutesLeft(until, now)) && sessions == old(sessions) && attempts == old(attempts)
      ensures !(ip in old(attempts) && LockActive(old(attempts)[ip], now)) && given == password ==>
        r == LoggedIn(token, SessionExpiry) && attempts == old(attempts) - {ip}
        && sessions == old(sessions)[token := Session(now, now)]
      ensures !(ip in old(attempts) && LockActive(old(attempts)[ip], now)) && given != password ==>
        var cleared := Cleared(old(attempts), ip, now);
        var a := Failure(Prior(cleared, ip), now);
        sessions == old(sessions) && attempts == cleared[ip := a] && r == FailureReply(a)
      ensures old(Valid()) ==> Valid()
      ensures old(Valid()) && old(Bounded()) ==> Bounded()
    {
      var g := RateLimit(ip, now);
      if g.Blocked? {
        return TooManyAttempts(g.lockedUntil, g.minutes);
      }
      r := LoginHandler(ip, given, token, now);
    }

    /** authAdmin: check the bearer token and slide its expiry. */
    method Authorize(header: Option<string>, now: nat) returns (r: AuthReply)
      modifies this
      ensures attempts == old(attempts)
      ensures var t := if header.Some? then BearerToken(header.value) else None;
        if t.None? then
          r == NotAuthorized && sessions == old(sessions)
        else if t.value !in old(sessions) then
          r == InvalidToken && sessions == old(sessions)
        else if Idle(old(sessions)[t.value], now) then
          r == SessionExpired && sessions == old(sessions) - {t.value}
        else
          r == Admitted && sessions == old(sessions)[t.value := old(sessions)[t.value].(lastActivity := now)]
    {
      if header.None? || BearerToken(header.value).None? {
        return NotAuthorized;
      }
      var token := BearerToken(header.value).value;
      if token !in sessions {
        return InvalidToken;
      }
      var session := sessions[token];
      if now - session.lastActivity > SessionExpiry {
        sessions := sessions - {token};
        return SessionExpired;
      }
      sessions := sessions[token := session.(lastActivity := now)];
      r := Admitted;
    }

    /** The minute timer: drop idle sessions, then attempt records whose lockout has passed. */
    method Sweep(now: nat)
      modifies this
      ensures sessions == SweptSessions(old(sessions), now)
      ensures attempts == SweptAttempts(old(attempts), now)
      ensures old(Valid()) ==> Valid()
      ensures old(Bounded()) ==> Bounded()
    {
      var pending := sessions.Keys;
      while pending != {}
        invariant pending <= old(sessions).Keys
        invariant sessions.Keys <= old(sessions).Keys
        invariant forall t | t in sessions :: sessions[t] == old(sessions)[t]
        invariant forall t | t in old(sessions) ::
          t in sessions <==> t in pending || !Idle(old(sessions)[t], now)
        invariant attempts == old(attempts)
        decreases pending
      {
        var t :| t in pending;
        if t in sessions && now - sessions[t].lastActivity > SessionExpiry {
          sessions := sessions - {t};
        }
        pending := pending - {t};
      }
      var ips := attempts.Keys;
      while ips != {}
        invariant ips <= old(attempts).Keys
        invariant attempts.Keys <= old(attempts).Keys
        invariant forall ip | ip in attempts :: attempts[ip] == old(attempts)[ip]
        invariant forall ip | ip in old(attempts) ::
          ip in attempts <==> ip in ips || !LockPassed(old(attempts)[ip], now)
        invariant sessions == SweptSessions(old(sessions), now)
        decreases ips
      {
        var ip :| ip in ips;
        if ip in attempts {
          var attempt := attempts[ip];
          if attempt.lockedUntil.Some? && now > attempt.lockedUntil.value {
            attempts := attempts - {ip};
          }
        }
        ips := ips - {ip};
      }
    }
  }

  /** After a sweep, no token the middleware is shown can be expired at the same instant. */
  lemma NoExpiryRightAfterSweep(m: map<string, Session>, now: nat, t: string)
    requires t in SweptSessions(m, now)
    ensures !Idle(SweptSessions(m, now)[t], now)
  {
  }

  /**
   * Five wrong passwords from one IP lock it out for fifteen minutes; during the lockout even the
   * right password is refused; once it has run out the right password opens a usable session.
   */
  method LockoutScenario(ip: string, t0: nat, token: string) returns (replies: seq<LoginReply>, auth: AuthReply)
    requires ' ' !in token
    ensures replies == [WrongPassword(4), WrongPassword(3), WrongPassword(2), WrongPassword(1),
                        LockedOut(t0 + LockoutDuration), TooManyAttempts(t0 + LockoutDuration, 15),
                        LoggedIn(token, SessionExpiry)]
    ensures auth == Admitted
  {
    var guard := new AdminGuard(None);
    replies := [];
    var i := 0;
    while i < 5
      invariant 0 <= i <= 5
      invariant guard.password == DefaultPassword && guard.sessions == map[]
      invariant i == 0 ==> ip !in guard.attempts
      invariant i > 0 ==> ip in guard.attempts && guard.attempts[ip].count == i
      invariant i > 0 && i < 5 ==> guard.attempts[ip].lockedUntil == None
      invariant i == 5 ==> guard.attempts[ip].lockedUntil == Some(t0 + LockoutDuration)
      invariant replies == WrongTries(i, t0)
    {
      var r := guard.Login(ip, "wrong", "unused", t0);
      replies := replies + [r];
      i := i + 1;
    }
    FiveWrongTries(t0);
    var blocked := guard.Login(ip, DefaultPassword, "unused", t0);
    assert MinutesLeft(t0 + LockoutDuration, t0) == 15;
    assert blocked == TooManyAttempts(t0 + LockoutDuration, 15);
    var later := guard.Login(ip, DefaultPassword, token, t0 + LockoutDuration);
    assert later == LoggedIn(token, SessionExpiry);
    replies := replies + [blocked, later];
    BearerTokenRoundTrip(token, "");
    auth := guard.Authorize(Some("Bearer " + token), t0 + LockoutDuration);
  }

  /** The replies to the first `i` wrong passwords from a fresh IP, all at time `t0`. */
  function WrongTries(i: nat, t0: nat): (rs: seq<LoginReply>)
    requires i <= 5
    ensures |rs| == i
  {
    if i == 0 then []
    else WrongTries(i - 1, t0) + [if i == 5 then LockedOut(t0 + LockoutDuration) else WrongPassword(5 - i)]
  }

  lemma FiveWrongTries(t0: nat)
    ensures WrongTries(5, t0) == [WrongPassword(4), WrongPassword(3), WrongPassword(2), WrongPassword(1),
                                  LockedOut(t0 + LockoutDuration)]
  {
    assert WrongTries(1, t0) == [WrongPassword(4)];
    assert WrongTries(2, t0) == [WrongPassword(4), WrongPassword(3)];
    assert WrongTries(3, t0) == [WrongPassword(4), WrongPassword(3), WrongPassword(2)];
    assert WrongTries(4, t0) == [WrongPassword(4), WrongPassword(3), WrongPassword(2), WrongPassword(1)];
  }

  /**
   * A session used once an hour stays open indefinitely (the window slides), is refused once it has
   * been idle for more than an hour, and is forgotten after that refusal.
   */
  method SlidingExpiryScenario(token: string, t0: nat) returns (replies: seq<AuthReply>)
    requires ' ' !in token
    ensures replies == [Admitted, Admitted, SessionExpired, InvalidToken]
  {
    var guard := new AdminGuard(None);
    var login := guard.Login("10.0.0.1", DefaultPassword, token, t0);
    BearerTokenRoundTrip(token, "");
    var header := Some("Bearer " + token);
    var a1 := guard.Authorize(header, t0 + SessionExpiry);
    var a2 := guard.Authorize(header, t0 + 2 * SessionExpiry);
    var a3 := guard.Authorize(header, t0 + 3 * SessionExpiry + 1);
    var a4 := guard.Authorize(header, t0 + 3 * SessionExpiry + 1);
    replies := [a1, a2, a3, a4];
  }
}
