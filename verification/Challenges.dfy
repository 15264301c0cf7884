/** Login challenges (internal/server/twofa.go): what stands between the password and the session when two-factor login
    is on, and the handler that completes it. */
module Challenges {
  import opened Wrappers
  import opened Text
  import opened Guard
  import opened OneTime

  const TTL := 5 * MINUTE
  const MAX_TRIES := 5

  datatype Challenge = Challenge(user: string, ip: string, ua: string, expires: int, attempts: nat)

  type Pending = map<string, Challenge>

  // ---------- the operations ----------

  function Unexpired(t: Pending, now: int): Pending {
    map k | k in t && now <= t[k].expires :: t[k]
  }

  function NewChallenge(user: string, ip: string, ua: string, now: int): Challenge {
    Challenge(user, ip, ua, now + TTL, 0)
  }

  function Opened(t: Pending, token: string, c: Challenge, now: int): Pending {
    Unexpired(t, now)[token := c]
  }

  predicate Fits(c: Challenge, ip: string, ua: string, now: int) {
    now <= c.expires && c.ip == ip && c.ua == ua && c.attempts < MAX_TRIES
  }

  /** A challenge that a login may use: opened for this address and client, at most five minutes ago, failed fewer than
      five times. */
  ghost predicate Usable(c: Challenge, ip: string, ua: string, now: int) {
    c.ip == ip && c.ua == ua && now <= c.expires && c.attempts < 5
  }

  /** A challenge that does not fit is deleted at the first look. */
  function LookedUp(t: Pending, token: string, ip: string, ua: string, now: int): (Pending, Option<Challenge>) {
    if token == "" || token !in t then (t, None)
    else if !Fits(t[token], ip, ua, now) then (t - {token}, None)
    else (t, Some(t[token]))
  }

  /** One more failure; the last one deletes the challenge. */
  function FailedOnce(t: Pending, token: string): (Pending, bool) {
    if token !in t then (t, false)
    else if t[token].attempts + 1 >= MAX_TRIES then (t - {token}, false)
    else (t[token := t[token].(attempts := t[token].attempts + 1)], true)
  }

  datatype Outcome = Refused | MustWait | WrongCode(alive: bool) | SignedIn(user: string)

  /** handleLogin2FA on the challenges; `blocked` is the guard's verdict, `passes` the second factor's. */
  function Login(t: Pending, token: string, ip: string, ua: string, now: int, blocked: bool, passes: bool): (Pending,
                 Outcome) {
    var l := LookedUp(t, token, ip, ua, now);
    if l.1.None? then (l.0, Refused)
    else if blocked then (l.0, MustWait)
    else if passes then (l.0 - {token}, SignedIn(l.1.value.user))
    else
      var f := FailedOnce(l.0, token);
      (f.0, WrongCode(f.1))
  }

  /** What an outcome rests on: a session only on an admitted code, which is then spent; without a session the settings
      are as before; and on a usable challenge an admitted code signs its user in. */
  ghost predicate Justified(o: Crypto, secret: string, stored: Option<string>, hashes: seq<string>, code: string,
                            second: nat, save: bool, usable: Option<string>, after: Option<string>, left: seq<string>,
                            r: Outcome)
  {
    && (if r.SignedIn? then && Admits(o, secret, stored, hashes, code, second, save, after, left)
                            && if SixDigits(code) then after != stored else |left| + 1 == |hashes|
        else after == stored && left == hashes)
    && (usable.Some? && (exists a, l :: Admits(o, secret, stored, hashes, code, second, save, a, l)) ==>
          r == SignedIn(usable.value))
  }

  lemma {:induction false} Completed(o: Crypto, secret: string, stored: Option<string>, hashes: seq<string>,
                                     code: string, second: nat, save: bool, usable: Option<string>, user: string,
                                     r: Outcome)
    requires second <= MAX_INT64 && (usable.Some? ==> usable.value == user)
    requires SecondFactor(o, secret, stored, hashes, code, second, save).0 == r.SignedIn?
    requires r.SignedIn? ==> r.user == user
    ensures var f := SecondFactor(o, secret, stored, hashes, code, second, save);
            Justified(o, secret, stored, hashes, code, second, save, usable, f.1, f.2, r)
  {
    var f := SecondFactor(o, secret, stored, hashes, code, second, save);
    SecondFactorIff(o, secret, stored, hashes, code, second, save);
    if f.0 {
      AdmittedIsSpent(o, secret, stored, hashes, code, second, save, f.1, f.2);
    }
  }

  // ---------- the server ----------

  class LoginServer {
    const guard: LoginGuard
    const settings: Settings
    var chals: Pending
    var sessions: seq<string>

    constructor (guard: LoginGuard, settings: Settings)
      ensures this.guard == guard && this.settings == settings && chals == map[] && sessions == []
    {
      this.guard, this.settings, chals, sessions := guard, settings, map[], [];
    }

    /** createChallenge; expired ones are dropped on the way. */
    method CreateChallenge(token: string, user: string, ip: string, ua: string, now: int)
      modifies this`chals
      ensures chals == Opened(old(chals), token, NewChallenge(user, ip, ua, now), now)
      ensures forall k :: k in chals && k != token <==> k in old(chals) && k != token && now <= old(chals)[k].expires
      ensures forall k :: k in chals && k != token ==> chals[k] == old(chals)[k]
    {
      var todo := chals.Keys;
      while todo != {}
        invariant todo <= old(chals).Keys
        invariant chals == map k | k in old(chals) && (k in todo || now <= old(chals)[k].expires) :: old(chals)[k]
        decreases todo
      {
        var k :| k in todo;
        todo := todo - {k};
        if now > chals[k].expires {
          chals := chals - {k};
        }
      }
      assert chals == Unexpired(old(chals), now);
      chals := chals[token := Challenge(user, ip, ua, now + TTL, 0)];
    }

    method LookupChallenge(token: string, ip: string, ua: string, now: int) returns (c: Option<Challenge>)
      modifies this`chals
      ensures (chals, c) == LookedUp(old(chals), token, ip, ua, now)
    {
      if token == "" || token !in chals {
        return None;
      }
      var found := chals[token];
      if now > found.expires || found.ip != ip || found.ua != ua || found.attempts >= MAX_TRIES {
        chals := chals - {token};
        return None;
      }
      c := Some(found);
    }

    method FailChallenge(token: string) returns (alive: bool)
      modifies this`chals
      ensures (chals, alive) == FailedOnce(old(chals), token)
    {
      if token !in chals {
        return false;
      }
      chals := chals[token := chals[token].(attempts := chals[token].attempts + 1)];
      if chals[token].attempts >= MAX_TRIES {
        chals := chals - {token};
        assert chals == old(chals) - {token};
        return false;
      }
      alive := true;
    }

    /** handleLogin2FA from the second factor on. */
    method Complete(token: string, ip: string, user: string, code: string, now: int, second: nat,
                    save: bool) returns (r: Outcome)
      modifies this, guard, settings
      ensures var f := SecondFactor(settings.o, settings.secret, old(settings.lastStep), old(settings.hashes), code,
                  second, save);
              && (settings.lastStep, settings.hashes) == (f.1, f.2)
              && if f.0 then
                   && r == SignedIn(user) && chals == old(chals) - {token} && sessions == old(sessions) + [user]
                   && guard.byIP == old(guard.byIP) - {ip} && guard.byUser == old(guard.byUser) - {user}
                 else
                   && r == WrongCode(FailedOnce(old(chals), token).1) && chals == FailedOnce(old(chals), token).0
                   && sessions == old(sessions)
                   && FailedFrom(old(guard.byIP), old(guard.byUser), ip, user, now, guard.byIP, guard.byUser)
    {
      SecondFactorIff(settings.o, settings.secret, settings.lastStep, settings.hashes, code, second, save);
      var err := settings.CheckSecondFactor(code, second, save);
      if err.Some? {
        var alive := FailChallenge(token);
        guard.Fail(ip, user, now);
        return WrongCode(alive);
      }
      chals := chals - {token};
      guard.Success(ip, user);
      sessions := sessions + [user];
      r := SignedIn(user);
    }

    /** handleLogin2FA. `now` is in nanoseconds, `second` the same instant in seconds. */
    method Login2FA(token: string, ip: string, ua: string, typed: string, now: int, second: nat,
                    save: bool) returns (r: Outcome)
      requires second <= MAX_INT64
      modifies this, guard, settings
      ensures var c := LookedUp(old(chals), token, ip, ua, now).1;
              var blocked := c.Some? && Max(Wait(Lookup(old(guard.byIP), ip), now),
                  Wait(Lookup(old(guard.byUser), c.value.user), now)) > 0;
              && (chals, r) == Login(old(chals), token, ip, ua, now, blocked, r.SignedIn?)
              && sessions == (if r.SignedIn? then old(sessions) + [r.user] else old(sessions))
              && (r.Refused? && token != "" ==> token !in chals)
              && (r.SignedIn? || r.WrongCode? ==> !blocked)
              && (r.Refused? || r.MustWait? ==> guard.byIP == old(guard.byIP) && guard.byUser == old(guard.byUser))
              && (r.SignedIn? ==> guard.byIP == old(guard.byIP) - {ip} && guard.byUser == old(guard.byUser) - {r.user})
              && (r.WrongCode? ==> FailedFrom(old(guard.byIP), old(guard.byUser), ip, c.value.user, now, guard.byIP,
                  guard.byUser))
      ensures var usable := token != "" && token in old(chals) && Usable(old(chals)[token], ip, ua, now)
                  && Wait(Lookup(old(guard.byIP), ip), now) == 0
                  && Wait(Lookup(old(guard.byUser), old(chals)[token].user), now) == 0;
              var code := if |TrimSpace(typed)| > 32 then TrimSpace(typed)[..32] else TrimSpace(typed);
              Justified(settings.o, settings.secret, old(settings.lastStep), old(settings.hashes), code, second, save,
                  if usable then Some(old(chals)[token].user) else None, settings.lastStep, settings.hashes, r)
    {
      ghost var stored, hashes := settings.lastStep, settings.hashes;
      var c := LookupChallenge(token, ip, ua, now);
      if c.None? {
        r := Refused;
      } else {
        var wait := guard.Blocked(ip, c.value.user, now);
        if wait > 0 {
          r := MustWait;
        } else {
          var code := TrimSpace(typed);
          if |code| > 32 {
            code := code[..32];
          }
          r := Complete(token, ip, c.value.user, code, now, second, save);
          Completed(settings.o, settings.secret, stored, hashes, code, second, save, Some(c.value.user), c.value.user,
              r);
        }
      }
    }
  }

  // ---------- whole runs ----------

  datatype Event =
    | Open(token: string, user: string, ip: string, ua: string, now: int)
    | Try(token: string, ip: string, ua: string, now: int, blocked: bool, passes: bool)

  /** The challenges, and beside them what each token has been opened for, failed at and signed in with. */
  datatype Run = Run(chals: Pending, born: Pending, failed: map<string, nat>, signed: map<string, nat>)

  const START := Run(map[], map[], map[], map[])

  function Count(m: map<string, nat>, k: string): nat {
    if k in m then m[k] else 0
  }

  function Next(s: Run, e: Event): Run {
    match e
    case Open(token, user, ip, ua, now) =>
      var c := NewChallenge(user, ip, ua, now);
      s.(chals := Opened(s.chals, token, c, now), born := s.born[token := c])
    case Try(token, ip, ua, now, blocked, passes) =>
      var r := Login(s.chals, token, ip, ua, now, blocked, passes);
      match r.1
      case Refused => s.(chals := r.0)
      case MustWait => s.(chals := r.0)
      case WrongCode(_) => s.(chals := r.0, failed := s.failed[token := Count(s.failed, token) + 1])
      case SignedIn(_) => s.(chals := r.0, signed := s.signed[token := Count(s.signed, token) + 1])
  }

  /** Tokens are random and never drawn twice. */
  predicate FreshTokens(evs: seq<Event>) {
    forall i, j :: 0 <= i < j < |evs| && evs[i].Open? && evs[j].Open? ==> evs[i].token != evs[j].token
  }

  function After(evs: seq<Event>, k: nat): Run
    requires k <= |evs|
  {
    if k == 0 then START else Next(After(evs, k - 1), evs[k - 1])
  }

  /** A token's challenge, while stored, is what was opened with the failures counted; fewer than five, and no session
      yet. Stored or not: at most five failed checks, at most one session, no session after five failures, nothing
      without opening. */
  ghost predicate TokenOk(s: Run, k: string) {
    && (k in s.chals ==> k in s.born && s.chals[k] == s.born[k].(attempts := Count(s.failed, k))
                         && Count(s.failed, k) < 5 && Count(s.signed, k) == 0)
    && Count(s.failed, k) <= 5 && Count(s.signed, k) <= 1
    && Count(s.failed, k) + Count(s.signed, k) <= 5
    && (k !in s.born ==> Count(s.failed, k) == 0 && Count(s.signed, k) == 0)
  }

  lemma {:induction false} LoginElsewhere(t: Pending, token: string, ip: string, ua: string, now: int, blocked: bool,
                                          passes: bool, k: string)
    requires k != token
    ensures Lookup(Login(t, token, ip, ua, now, blocked, passes).0, k) == Lookup(t, k)
  {
  }

  lemma {:induction false} LoginHere(t: Pending, token: string, ip: string, ua: string, now: int, blocked: bool,
                                     passes: bool)
    ensures var l := Login(t, token, ip, ua, now, blocked, passes);
            match l.1
            case Refused => token != "" ==> token !in l.0
            case MustWait => l.0 == t
            case SignedIn(_) => token in t && token !in l.0
            case WrongCode(alive) => && token in t && t[token].attempts < MAX_TRIES
                                     && (alive <==> token in l.0) && (alive <==> t[token].attempts + 1 < MAX_TRIES)
                                     && (alive ==> l.0[token] == t[token].(attempts := t[token].attempts + 1))
  {
  }

  lemma {:induction false} TryKeeps(s: Run, e: Event, k: string)
    requires TokenOk(s, k) && e.Try?
    ensures TokenOk(Next(s, e), k)
  {
    if k == e.token {
      LoginHere(s.chals, e.token, e.ip, e.ua, e.now, e.blocked, e.passes);
    } else {
      LoginElsewhere(s.chals, e.token, e.ip, e.ua, e.now, e.blocked, e.passes, k);
    }
  }

  lemma {:induction false} StepKeeps(s: Run, e: Event, k: string)
    requires TokenOk(s, k) && (e.Open? ==> e.token !in s.born)
    ensures TokenOk(Next(s, e), k)
  {
    if e.Try? {
      TryKeeps(s, e, k);
    }
  }

  lemma {:induction false} BornOpened(evs: seq<Event>, k: nat, token: string)
    requires k <= |evs| && token in After(evs, k).born
    ensures exists i :: 0 <= i < k && evs[i].Open? && evs[i].token == token
                     && After(evs, k).born[token] == NewChallenge(evs[i].user, evs[i].ip, evs[i].ua, evs[i].now)
  {
    var e := evs[k - 1];
    if !(e.Open? && e.token == token) {
      BornOpened(evs, k - 1, token);
    }
  }

  /** The life of a challenge, over every sequential run: what is stored has fewer than five failures and no session,
      and no token ever collects more than five failed checks or one session. */
  lemma {:induction false} ChallengeLife(evs: seq<Event>, k: nat, token: string)
    requires FreshTokens(evs) && k <= |evs|
    ensures TokenOk(After(evs, k), token)
  {
    if k > 0 {
      ChallengeLife(evs, k - 1, token);
      var s, e := After(evs, k - 1), evs[k - 1];
      if e.Open? && e.token in s.born {
        BornOpened(evs, k - 1, e.token);
      }
      StepKeeps(s, e, token);
    }
  }

  /** A check is made, and a session started, only while neither address nor account is blocked, on a challenge that was
      opened before, from the address and client it was opened for, and not after it expired; the session is the user's
      it was opened for. */
  lemma {:induction false} OnlyBoundLogins(evs: seq<Event>, k: nat)
    requires FreshTokens(evs) && k < |evs| && evs[k].Try?
    ensures var e := evs[k];
            var r := Login(After(evs, k).chals, e.token, e.ip, e.ua, e.now, e.blocked, e.passes).1;
            r.WrongCode? || r.SignedIn? ==>
              exists i :: && 0 <= i < k && evs[i].Open? && evs[i].token == e.token
                          && !e.blocked && evs[i].ip == e.ip && evs[i].ua == e.ua && e.now <= evs[i].now + 5 * MINUTE
                          && (r.SignedIn? ==> r.user == evs[i].user)
  {
    var s, e := After(evs, k), evs[k];
    ChallengeLife(evs, k, e.token);
    if e.token in s.chals {
      BornOpened(evs, k, e.token);
    }
  }
}
