/** One-time codes (section 5.2 of RFC 6238) and recovery codes: internal/auth/totp.go, and their bookkeeping in
    internal/server/twofa.go. Digests and the code function are parameters. */
module OneTime {
  import opened Wrappers
  import opened Text

  /** What is taken from outside: HOTP, base32 decoding, the SHA-256 hex digest. */
  datatype Crypto = Crypto(hotp: (string, int) -> string, decode: string -> Option<string>, digest: string -> string)

  const DIGITS := 6
  const PERIOD := 30
  const SKEW := 1
  const RECOVERY_LEN := 10

  datatype CodeError = NotSetup | BadCode | Reused | NotStored

  function Upper(c: char): char {
    if 'a' <= c <= 'z' then (c as int - 32) as char else c
  }

  function NormalizeSecret(s: string): string {
    if s == "" then ""
    else if s[0] == ' ' || s[0] == '-' || s[0] == '\t' then NormalizeSecret(s[1..])
    else [Upper(s[0])] + NormalizeSecret(s[1..])
  }

  lemma {:induction false} SecretJoin(a: string, b: string)
    ensures NormalizeSecret(a + b) == NormalizeSecret(a) + NormalizeSecret(b)
  {
    if a == "" {
      assert a + b == b;
    } else {
      assert (a + b)[1..] == a[1..] + b && (a + b)[0] == a[0];
      SecretJoin(a[1..], b);
      Assoc([Upper(a[0])], NormalizeSecret(a[1..]), NormalizeSecret(b));
    }
  }

  lemma {:induction false} NormalSecret(a: string)
    ensures (forall i :: 0 <= i < |a| ==> 'A' <= a[i] <= 'Z' || '2' <= a[i] <= '7') ==> NormalizeSecret(a) == a
    ensures NormalizeSecret(ToLower(a)) == NormalizeSecret(a)
  {
    if a != "" {
      NormalSecret(a[1..]);
      assert ToLower(a)[1..] == ToLower(a[1..]);
    }
  }

  /** A Base32 secret is its own normal form; blanks, tabs and dashes put anywhere, and small letters, change
      nothing. */
  lemma {:induction false} SecretSpellings(a: string, c: char, b: string)
    ensures (forall i :: 0 <= i < |a| ==> 'A' <= a[i] <= 'Z' || '2' <= a[i] <= '7') ==> NormalizeSecret(a) == a
    ensures c == ' ' || c == '-' || c == '\t' ==> NormalizeSecret(a + [c] + b) == NormalizeSecret(a + b)
    ensures NormalizeSecret(ToLower(a)) == NormalizeSecret(a)
  {
    NormalSecret(a);
    SecretJoin(a + [c], b);
    SecretJoin(a, [c]);
    SecretJoin(a, b);
    assert [c][1..] == "";
  }

  // ---------- checking a code ----------

  function Counter(now: nat): nat {
    now / PERIOD
  }

  /** The first step from cur + d on, within the skew, whose code is `code`. */
  function FirstHit(hotp: (string, int) -> string, key: string, code: string, cur: int, d: int): (r: Option<int>)
    ensures r.Some? ==> cur + d <= r.value <= cur + SKEW && hotp(key, r.value) == code
    ensures r.Some? ==> forall step :: cur + d <= step < r.value ==> hotp(key, step) != code
    ensures r.None? ==> forall step :: cur + d <= step <= cur + SKEW ==> hotp(key, step) != code
    decreases SKEW - d + 1
  {
    if d > SKEW then None
    else if hotp(key, cur + d) == code then Some(cur + d)
    else FirstHit(hotp, key, code, cur, d + 1)
  }

  /** Verify, on the trimmed code: the matching step, earliest first. */
  function Verify(o: Crypto, secret: string, code: string, now: nat): Option<int> {
    var c, key := TrimSpace(code), o.decode(NormalizeSecret(secret));
    if |c| != DIGITS || !Digits(c) || key.None? || key.value == "" then None
    else FirstHit(o.hotp, key.value, c, Counter(now), -SKEW)
  }

  /** The code is the six digits of time step `step`: the key is the decoded secret. */
  ghost predicate RightFor(o: Crypto, secret: string, code: string, step: int) {
    var key := o.decode(NormalizeSecret(secret));
    && |code| == 6 && (forall i :: 0 <= i < 6 ==> '0' <= code[i] <= '9')
    && key.Some? && key.value != "" && o.hotp(key.value, step) == code
  }

  /** The first right step among the clock's own half minute, the one before and the one after. */
  ghost predicate FirstRight(o: Crypto, secret: string, code: string, now: nat, step: int) {
    && now / 30 - 1 <= step <= now / 30 + 1 && RightFor(o, secret, code, step)
    && forall s :: now / 30 - 1 <= s < step ==> !RightFor(o, secret, code, s)
  }

  /** Verify finds the first right step of the trimmed code. */
  lemma {:induction false} VerifyIff(o: Crypto, secret: string, code: string, now: nat, step: int)
    ensures Verify(o, secret, code, now) == Some(step) <==> FirstRight(o, secret, TrimSpace(code), now, step)
  {
    var c, key, r := TrimSpace(code), o.decode(NormalizeSecret(secret)), Verify(o, secret, code, now);
    if r.None? && |c| == 6 && Digits(c) && key.Some? && key.value != "" {
      assert forall s :: Counter(now) - 1 <= s <= Counter(now) + 1 ==> o.hotp(key.value, s) != c;
    }
    if r.Some? {
      assert RightFor(o, secret, c, r.value);
    }
  }

  method VerifyLoop(o: Crypto, secret: string, code: string, now: nat) returns (r: Option<int>)
    ensures r == Verify(o, secret, code, now)
  {
    var trimmed := TrimSpace(code);
    if |trimmed| != DIGITS {
      return None;
    }
    for i := 0 to |trimmed|
      invariant forall j :: 0 <= j < i ==> Digit(trimmed[j])
    {
      if trimmed[i] < '0' || trimmed[i] > '9' {
        return None;
      }
    }
    var key := o.decode(NormalizeSecret(secret));
    if key.None? || |key.value| == 0 {
      return None;
    }
    var c: int := Counter(now);
    var d: int := -SKEW;
    while d <= SKEW
      invariant -SKEW <= d <= SKEW + 1
      invariant FirstHit(o.hotp, key.value, trimmed, c, -SKEW) == FirstHit(o.hotp, key.value, trimmed, c, d)
    {
      if o.hotp(key.value, c + d) == trimmed {
        return Some(c + d);
      }
      d := d + 1;
    }
    r := None;
  }

  /** The last recorded step, as the setting's text says. */
  function LastStep(stored: Option<string>): int {
    if stored.Some? then AtoiValue(stored.value) else 0
  }

  /** A last step more than two ahead of the clock is taken for a clock that was set back, and ignored. */
  predicate RolledBack(last: int, now: nat) {
    last > Counter(now) + 2
  }

  /** The step to be recorded, or why the code is refused. */
  function Judge(o: Crypto, stored: Option<string>, secret: string, code: string, now: nat): Result<int, CodeError> {
    if secret == "" then Err(NotSetup)
    else
      var step := Verify(o, secret, code, now);
      if step.None? then Err(BadCode)
      else if step.value <= (if RolledBack(LastStep(stored), now) then 0 else LastStep(stored)) then Err(Reused)
      else Ok(step.value)
  }

  /** verifyCode with recording: the step is stored, or the login fails. */
  function Recorded(o: Crypto, stored: Option<string>, secret: string, code: string, now: nat,
                    save: bool): (Option<int>, Option<string>) {
    var j := Judge(o, stored, secret, code, now);
    if j.Ok? && save then (Some(j.value), Some(Itoa(j.value))) else (None, stored)
  }

  lemma {:induction false} StepStored(step: int, now: nat)
    requires Counter(now) - SKEW <= step <= Counter(now) + SKEW && Counter(now) < MAX_INT64 - 1
    ensures LastStep(Some(Itoa(step))) == step
  {
    AtoiItoa(step);
  }

  // ---------- runs of recorded checks ----------

  datatype Check = Check(now: nat, code: string, save: bool)

  /** Clock steps are int64. */
  predicate Dated(cs: seq<Check>) {
    forall i :: 0 <= i < |cs| ==> Counter(cs[i].now) < MAX_INT64 - 1
  }

  /** The setting after the first k checks. */
  function StoredAfter(o: Crypto, secret: string, s: Option<string>, cs: seq<Check>, k: nat): Option<string>
    requires k <= |cs|
  {
    if k == 0 then s
    else Recorded(o, StoredAfter(o, secret, s, cs, k - 1), secret, cs[k - 1].code, cs[k - 1].now, cs[k - 1].save).1
  }

  /** The step accepted by check k, if any. */
  function AcceptedAt(o: Crypto, secret: string, s: Option<string>, cs: seq<Check>, k: nat): Option<int>
    requires k < |cs|
  {
    Recorded(o, StoredAfter(o, secret, s, cs, k), secret, cs[k].code, cs[k].now, cs[k].save).0
  }

  /** What each check answers. */
  function Answers(o: Crypto, secret: string, s: Option<string>, cs: seq<Check>): (r: seq<Option<int>>)
    ensures |r| == |cs| && forall k :: 0 <= k < |cs| ==> r[k] == AcceptedAt(o, secret, s, cs, k)
  {
    seq(|cs|, k requires 0 <= k < |cs| => AcceptedAt(o, secret, s, cs, k))
  }

  /** The values among the first k answers, in order. */
  function Values(answers: seq<Option<int>>, k: nat): seq<int>
    requires k <= |answers|
  {
    if k == 0 then [] else Values(answers, k - 1) + if answers[k - 1].Some? then [answers[k - 1].value] else []
  }

  /** The accepted steps, in order. */
  function Accepted(o: Crypto, secret: string, s: Option<string>, cs: seq<Check>): seq<int> {
    Values(Answers(o, secret, s, cs), |cs|)
  }

  ghost predicate Increasing(s: seq<int>) {
    forall i, j :: 0 <= i < j < |s| ==> s[i] < s[j]
  }

  /** The steps recorded before each check, and at the end. */
  function Lasts(o: Crypto, secret: string, s: Option<string>, cs: seq<Check>): (r: seq<int>)
    ensures |r| == |cs| + 1 && forall k :: 0 <= k <= |cs| ==> r[k] == LastStep(StoredAfter(o, secret, s, cs, k))
  {
    seq(|cs| + 1, k requires 0 <= k <= |cs| => LastStep(StoredAfter(o, secret, s, cs, k)))
  }

  /** Which checks take the clock for set back. */
  function Rolls(lasts: seq<int>, cs: seq<Check>): (r: seq<bool>)
    requires |lasts| == |cs| + 1
    ensures |r| == |cs| && forall k :: 0 <= k < |cs| ==> r[k] == RolledBack(lasts[k], cs[k].now)
  {
    seq(|cs|, k requires 0 <= k < |cs| => RolledBack(lasts[k], cs[k].now))
  }

  /** No accepted check took the clock for set back. */
  ghost predicate NeverRolledBack(o: Crypto, secret: string, s: Option<string>, cs: seq<Check>) {
    var answers, rolls := Answers(o, secret, s, cs), Rolls(Lasts(o, secret, s, cs), cs);
    forall i :: 0 <= i < |cs| && answers[i].Some? ==> !rolls[i]
  }

  lemma {:induction false} AcceptedStep(o: Crypto, secret: string, s: Option<string>, cs: seq<Check>, k: nat)
    requires k < |cs| && Dated(cs)
    ensures var a, last := AcceptedAt(o, secret, s, cs, k), LastStep(StoredAfter(o, secret, s, cs, k));
            if a.None? then StoredAfter(o, secret, s, cs, k + 1) == StoredAfter(o, secret, s, cs, k)
            else && LastStep(StoredAfter(o, secret, s, cs, k + 1)) == a.value
                 && Counter(cs[k].now) - SKEW <= a.value <= Counter(cs[k].now) + SKEW
                 && (a.value > last <==> !RolledBack(last, cs[k].now))
  {
    var a := AcceptedAt(o, secret, s, cs, k);
    if a.Some? {
      StepStored(a.value, cs[k].now);
    }
  }

  lemma {:induction false} IncreasingAppend(s: seq<int>, x: int)
    requires s != []
    ensures Increasing(s + [x]) <==> Increasing(s) && s[|s| - 1] < x
  {
    var t := s + [x];
    if Increasing(t) {
      assert forall i :: 0 <= i < |s| ==> t[i] == s[i];
      assert t[|s| - 1] < t[|s|];
    }
  }

  lemma {:induction false} Snoc(x: int, a: seq<int>, y: int)
    ensures [x] + (a + [y]) == ([x] + a) + [y]
  {
  }

  /** A run seen from outside: answers, the step recorded before each check and at the end, and the checks that were
      taken for a clock set back. */
  ghost predicate RunFacts(answers: seq<Option<int>>, lasts: seq<int>, rolled: seq<bool>) {
    && |lasts| == |answers| + 1 && |rolled| == |answers|
    && forall i :: 0 <= i < |answers| ==>
         if answers[i].None? then lasts[i + 1] == lasts[i]
         else lasts[i + 1] == answers[i].value && (answers[i].value > lasts[i] <==> !rolled[i])
  }

  lemma {:induction false} RunStep(all: seq<int>, next: seq<int>, a: Option<int>, last: int, rolled: bool)
    requires all != [] && all[|all| - 1] == last && next == all + (if a.Some? then [a.value] else [])
    requires a.Some? ==> (a.value > last <==> !rolled)
    ensures Increasing(next) <==> Increasing(all) && (a.Some? ==> !rolled)
    ensures next[|next| - 1] == a.GetOr(last)
  {
    if a.Some? {
      IncreasingAppend(all, a.value);
    } else {
      assert next == all;
    }
  }

  lemma {:induction false} ValuesStep(x: int, answers: seq<Option<int>>, k: nat)
    requires 0 < k <= |answers|
    ensures [x] + Values(answers, k)
        == ([x] + Values(answers, k - 1)) + (if answers[k - 1].Some? then [answers[k - 1].value] else [])
  {
    if answers[k - 1].Some? {
      Snoc(x, Values(answers, k - 1), answers[k - 1].value);
    }
  }

  lemma {:induction false} RunIncreasing(answers: seq<Option<int>>, lasts: seq<int>, rolled: seq<bool>, k: nat)
    requires RunFacts(answers, lasts, rolled) && k <= |answers|
    ensures var all := [lasts[0]] + Values(answers, k);
            && all[|all| - 1] == lasts[k]
            && (Increasing(all) <==> forall i :: 0 <= i < k && answers[i].Some? ==> !rolled[i])
  {
    if k > 0 {
      var a, before := answers[k - 1], [lasts[0]] + Values(answers, k - 1);
      RunIncreasing(answers, lasts, rolled, k - 1);
      ValuesStep(lasts[0], answers, k);
      assert before[|before| - 1] == lasts[k - 1];
      assert a.Some? ==> lasts[k] == a.value && (a.value > lasts[k - 1] <==> !rolled[k - 1]);
      assert a.None? ==> lasts[k] == lasts[k - 1];
      RunStep(before, [lasts[0]] + Values(answers, k), a, lasts[k - 1], rolled[k - 1]);
    } else {
      assert [lasts[0]] + Values(answers, 0) == [lasts[0]];
    }
  }

  lemma {:induction false} ChecksMakeARun(o: Crypto, secret: string, s: Option<string>, cs: seq<Check>)
    requires Dated(cs)
    ensures var lasts := Lasts(o, secret, s, cs); RunFacts(Answers(o, secret, s, cs), lasts, Rolls(lasts, cs))
  {
    var answers, lasts := Answers(o, secret, s, cs), Lasts(o, secret, s, cs);
    var rolled := Rolls(lasts, cs);
    forall i | 0 <= i < |answers|
      ensures if answers[i].None? then lasts[i + 1] == lasts[i]
              else lasts[i + 1] == answers[i].value && (answers[i].value > lasts[i] <==> !rolled[i])
    {
      AcceptedStep(o, secret, s, cs, i);
    }
  }

  /** One-time codes stay one-time, exactly: over any run of recorded checks the accepted time steps strictly increase,
      from the one recorded before, if and only if no accepted check took the clock for set back. */
  lemma {:induction false} StrictlyIncreasingIff(o: Crypto, secret: string, s: Option<string>, cs: seq<Check>)
    requires Dated(cs)
    ensures Increasing([LastStep(s)] + Accepted(o, secret, s, cs)) <==> NeverRolledBack(o, secret, s, cs)
  {
    var lasts := Lasts(o, secret, s, cs);
    ChecksMakeARun(o, secret, s, cs);
    RunIncreasing(Answers(o, secret, s, cs), lasts, Rolls(lasts, cs), |cs|);
    assert lasts[0] == LastStep(s);
  }

  /** The clock's step never falls more than one below its running maximum, nor two below what is recorded at the start.
      */
  ghost predicate ClockSteady(s: Option<string>, cs: seq<Check>) {
    && (forall i, j :: 0 <= i < j < |cs| ==> Counter(cs[j].now) >= Counter(cs[i].now) - 1)
    && forall j :: 0 <= j < |cs| ==> LastStep(s) <= Counter(cs[j].now) + 2
  }

  lemma {:induction false} SteadyLast(o: Crypto, secret: string, s: Option<string>, cs: seq<Check>, k: nat, j: nat)
    requires k <= j < |cs| && Dated(cs) && ClockSteady(s, cs)
    ensures !RolledBack(LastStep(StoredAfter(o, secret, s, cs, k)), cs[j].now)
  {
    if k > 0 {
      SteadyLast(o, secret, s, cs, k - 1, j);
      AcceptedStep(o, secret, s, cs, k - 1);
    }
  }

  /** With a steady clock no step is ever accepted twice. */
  lemma {:induction false} SteadyClockOneTime(o: Crypto, secret: string, s: Option<string>, cs: seq<Check>)
    requires Dated(cs) && ClockSteady(s, cs)
    ensures Increasing([LastStep(s)] + Accepted(o, secret, s, cs))
  {
    forall i | 0 <= i < |cs|
      ensures !RolledBack(LastStep(StoredAfter(o, secret, s, cs, i)), cs[i].now)
    {
      SteadyLast(o, secret, s, cs, i, i);
    }
    StrictlyIncreasingIff(o, secret, s, cs);
  }

  /** A clock set back by more than two steps lets a used step in again: any code that is right for the clock's own step
      is accepted, whatever has been accepted before. */
  lemma {:induction false} RollbackReplays(o: Crypto, stored: Option<string>, secret: string, code: string, now: nat)
    requires secret != "" && RolledBack(LastStep(stored), now) && Verify(o, secret, code, now).Some?
    ensures Judge(o, stored, secret, code, now).Ok? <==> Verify(o, secret, code, now).value >= 1
    ensures Verify(o, secret, code, now).value < LastStep(stored)
  {
  }

  // ---------- recovery codes ----------

  predicate CodeChar(c: char) {
    'A' <= c <= 'Z' || '0' <= c <= '9'
  }

  function NormalizeRecoveryCode(s: string): string {
    if s == "" then ""
    else (if CodeChar(Upper(s[0])) then [Upper(s[0])] else []) + NormalizeRecoveryCode(s[1..])
  }

  function FormatRecoveryCode(code: string): string {
    var s := NormalizeRecoveryCode(code);
    if |s| <= 5 then s else s[..5] + "-" + s[5..]
  }

  method NormalizeLoop(code: string) returns (b: string)
    ensures b == NormalizeRecoveryCode(code)
  {
    b := "";
    for i := 0 to |code|
      invariant b == NormalizeRecoveryCode(code[..i])
    {
      assert code[..i + 1] == code[..i] + [code[i]];
      NormalizeJoin(code[..i], [code[i]]);
      assert [code[i]][1..] == "";
      var r := Upper(code[i]);
      if ('A' <= r && r <= 'Z') || ('0' <= r && r <= '9') {
        b := b + [r];
      }
    }
    assert code[..|code|] == code;
  }

  lemma {:induction false} NormalizeJoin(a: string, b: string)
    ensures NormalizeRecoveryCode(a + b) == NormalizeRecoveryCode(a) + NormalizeRecoveryCode(b)
  {
    if a == "" {
      assert a + b == b;
    } else {
      var head := if CodeChar(Upper(a[0])) then [Upper(a[0])] else [];
      assert (a + b)[1..] == a[1..] + b && (a + b)[0] == a[0];
      NormalizeJoin(a[1..], b);
      Assoc(head, NormalizeRecoveryCode(a[1..]), NormalizeRecoveryCode(b));
    }
  }

  lemma {:induction false} NormalizeTwice(s: string)
    ensures NormalizeRecoveryCode(NormalizeRecoveryCode(s)) == NormalizeRecoveryCode(s)
  {
    if s != "" {
      NormalizeTwice(s[1..]);
      var c := Upper(s[0]);
      NormalizeJoin(if CodeChar(c) then [c] else [], NormalizeRecoveryCode(s[1..]));
      if CodeChar(c) {
        assert [c][1..] == "";
      }
    }
  }

  lemma {:induction false} NormalCode(a: string)
    ensures (forall i :: 0 <= i < |a| ==> CodeChar(a[i])) ==> NormalizeRecoveryCode(a) == a
    ensures NormalizeRecoveryCode(ToLower(a)) == NormalizeRecoveryCode(a)
  {
    if a != "" {
      NormalCode(a[1..]);
      assert ToLower(a)[1..] == ToLower(a[1..]);
    }
  }

  /** A recovery code is its own normal form; small letters, and other characters put anywhere, change nothing. */
  lemma {:induction false} RecoverySpellings(a: string, c: char, b: string)
    ensures (forall i :: 0 <= i < |a| ==> 'A' <= a[i] <= 'Z' || '0' <= a[i] <= '9') ==> NormalizeRecoveryCode(a) == a
    ensures !('A' <= c <= 'Z' || 'a' <= c <= 'z' || '0' <= c <= '9') ==>
              NormalizeRecoveryCode(a + [c] + b) == NormalizeRecoveryCode(a + b)
    ensures NormalizeRecoveryCode(ToLower(a)) == NormalizeRecoveryCode(a)
  {
    NormalCode(a);
    NormalizeJoin(a + [c], b);
    NormalizeJoin(a, [c]);
    NormalizeJoin(a, b);
    assert [c][1..] == "";
  }

  /** A recovery code is shown as two groups of five. */
  lemma {:induction false} FormatShape(code: string)
    requires |NormalizeRecoveryCode(code)| == 10
    ensures var f := FormatRecoveryCode(code);
            |f| == 11 && f[5] == '-' && f[..5] + f[6..] == NormalizeRecoveryCode(code)
  {
    var s, f := NormalizeRecoveryCode(code), FormatRecoveryCode(code);
    assert f[..5] == s[..5] && f[6..] == s[5..];
  }

  /** A displayed code reads back as the code. */
  lemma {:induction false} FormatReadsBack(code: string)
    ensures NormalizeRecoveryCode(FormatRecoveryCode(code)) == NormalizeRecoveryCode(code)
  {
    var s := NormalizeRecoveryCode(code);
    NormalizeTwice(code);
    if |s| > 5 {
      NormalizeJoin(s[..5] + "-", s[5..]);
      NormalizeJoin(s[..5], "-");
      NormalizeJoin(s[..5], s[5..]);
      assert s[..5] + s[5..] == s;
      assert NormalizeRecoveryCode("-") == "";
    }
  }

  function HashOf(o: Crypto, code: string): string {
    o.digest(NormalizeRecoveryCode(code))
  }

  predicate Matches(o: Crypto, code: string, h: string) {
    HashOf(o, code) == ToLower(TrimSpace(h))
  }

  /** The first stored hash that matches, or -1; every entry is compared. */
  method MatchRecoveryCode(o: Crypto, code: string, hashes: seq<string>) returns (idx: int)
    ensures -1 <= idx < |hashes|
    ensures idx >= 0 ==> Matches(o, code, hashes[idx]) && forall i :: 0 <= i < idx ==> !Matches(o, code, hashes[i])
    ensures idx < 0 ==> forall i :: 0 <= i < |hashes| ==> !Matches(o, code, hashes[i])
  {
    var want := HashOf(o, code);
    idx := -1;
    for i := 0 to |hashes|
      invariant -1 <= idx < i
      invariant idx >= 0 ==> Matches(o, code, hashes[idx]) && forall j :: 0 <= j < idx ==> !Matches(o, code, hashes[j])
      invariant idx < 0 ==> forall j :: 0 <= j < i ==> !Matches(o, code, hashes[j])
    {
      if want == ToLower(TrimSpace(hashes[i])) && idx < 0 {
        idx := i;
      }
    }
  }

  /** The first match taken out, the others in order; None when nothing matches. */
  function TakeFirst(o: Crypto, code: string, hashes: seq<string>): Option<seq<string>> {
    if hashes == [] then None
    else if Matches(o, code, hashes[0]) then Some(hashes[1..])
    else
      var rest := TakeFirst(o, code, hashes[1..]);
      if rest.None? then None else Some([hashes[0]] + rest.value)
  }

  lemma {:induction false} CutLater(h: seq<string>, idx: nat)
    requires 0 < idx < |h|
    ensures [h[0]] + (h[1..][..idx - 1] + h[1..][idx..]) == h[..idx] + h[idx + 1..]
  {
  }

  lemma {:induction false} TakeAt(o: Crypto, code: string, hashes: seq<string>, idx: nat)
    requires idx < |hashes| && Matches(o, code, hashes[idx])
    requires forall i :: 0 <= i < idx ==> !Matches(o, code, hashes[i])
    ensures TakeFirst(o, code, hashes) == Some(hashes[..idx] + hashes[idx + 1..])
  {
    if idx == 0 {
      assert hashes[..0] + hashes[1..] == hashes[1..];
    } else {
      assert forall i :: 0 <= i < idx - 1 ==> hashes[1..][i] == hashes[i + 1];
      TakeAt(o, code, hashes[1..], idx - 1);
      CutLater(hashes, idx);
    }
  }

  lemma {:induction false} TakeNone(o: Crypto, code: string, hashes: seq<string>)
    ensures TakeFirst(o, code, hashes).None? <==> forall i :: 0 <= i < |hashes| ==> !Matches(o, code, hashes[i])
  {
    if hashes != [] {
      TakeNone(o, code, hashes[1..]);
      assert forall i :: 1 <= i < |hashes| ==> hashes[i] == hashes[1..][i - 1];
    }
  }

  /** How many stored hashes a code matches. */
  function Copies(o: Crypto, code: string, hashes: seq<string>): nat {
    if hashes == [] then 0 else (if Matches(o, code, hashes[0]) then 1 else 0) + Copies(o, code, hashes[1..])
  }

  predicate SameHash(o: Crypto, a: string, b: string) {
    HashOf(o, a) == HashOf(o, b)
  }

  lemma {:induction false} TakeCopies(o: Crypto, code: string, hashes: seq<string>, other: string)
    requires TakeFirst(o, code, hashes).Some?
    ensures var rest := TakeFirst(o, code, hashes).value;
            && |rest| + 1 == |hashes|
            && Copies(o, other, rest) + (if SameHash(o, code, other) then 1 else 0) == Copies(o, other, hashes)
  {
    if !Matches(o, code, hashes[0]) {
      TakeCopies(o, code, hashes[1..], other);
      var tail := TakeFirst(o, code, hashes[1..]).value;
      assert ([hashes[0]] + tail)[1..] == tail;
    }
  }

  /** A login attempt with a recovery code, and whether the setting can be written. */
  datatype Attempt = Attempt(code: string, save: bool)

  /** consumeRecoveryCode: whether it passes, and the hashes left. */
  function Consume(o: Crypto, hashes: seq<string>, a: Attempt): (bool, seq<string>) {
    var rest := TakeFirst(o, a.code, hashes);
    if rest.Some? && a.save then (true, rest.value) else (false, hashes)
  }

  function HashesAfter(o: Crypto, hashes: seq<string>, attempts: seq<Attempt>, k: nat): seq<string>
    requires k <= |attempts|
  {
    if k == 0 then hashes else Consume(o, HashesAfter(o, hashes, attempts, k - 1), attempts[k - 1]).1
  }

  predicate Passes(o: Crypto, hashes: seq<string>, attempts: seq<Attempt>, k: nat)
    requires k < |attempts|
  {
    Consume(o, HashesAfter(o, hashes, attempts, k), attempts[k]).0
  }

  function Flag(b: bool): nat {
    if b then 1 else 0
  }

  function Sum(d: seq<nat>, k: nat): nat
    requires k <= |d|
  {
    if k == 0 then 0 else Sum(d, k - 1) + d[k - 1]
  }

  /** For each attempt, whether it passes, with a code of the same hash as `code` if one is given. */
  function PassFlags(o: Crypto, hashes: seq<string>, attempts: seq<Attempt>, code: Option<string>): (r: seq<nat>)
    ensures |r| == |attempts|
    ensures forall k :: 0 <= k < |attempts| ==>
              r[k] == Flag(Passes(o, hashes, attempts, k) && (code.Some? ==> SameHash(o, attempts[k].code, code.value)))
  {
    seq(|attempts|, k requires 0 <= k < |attempts| =>
                      Flag(Passes(o, hashes, attempts, k)
                          && (code.Some? ==> SameHash(o, attempts[k].code, code.value))))
  }

  /** How many of the first k attempts pass; and how many of them with that code. */
  function Passed(o: Crypto, hashes: seq<string>, attempts: seq<Attempt>, k: nat): nat
    requires k <= |attempts|
  {
    Sum(PassFlags(o, hashes, attempts, None), k)
  }

  function PassedWith(o: Crypto, hashes: seq<string>, attempts: seq<Attempt>, k: nat, code: string): nat
    requires k <= |attempts|
  {
    Sum(PassFlags(o, hashes, attempts, Some(code)), k)
  }

  /** What is spent and what is left add up. */
  lemma {:induction false} Telescopes(left: seq<nat>, spent: seq<nat>, k: nat)
    requires k <= |spent| && |left| == |spent| + 1
    requires forall i :: 0 <= i < |spent| ==> left[i + 1] + spent[i] == left[i]
    ensures Sum(spent, k) + left[k] == left[0]
  {
    if k > 0 {
      Telescopes(left, spent, k - 1);
    }
  }

  lemma {:induction false} ConsumeConserves(o: Crypto, hashes: seq<string>, a: Attempt, code: string)
    ensures var c := Consume(o, hashes, a);
            && |c.1| + (if c.0 then 1 else 0) == |hashes|
            && Copies(o, code, c.1) + (if c.0 && SameHash(o, a.code, code) then 1 else 0) == Copies(o, code, hashes)
  {
    if TakeFirst(o, a.code, hashes).Some? {
      TakeCopies(o, a.code, hashes, code);
    }
  }

  function LeftSizes(o: Crypto, hashes: seq<string>, attempts: seq<Attempt>): (r: seq<nat>)
    ensures |r| == |attempts| + 1 && forall k :: 0 <= k <= |attempts| ==> r[k] == |HashesAfter(o, hashes, attempts, k)|
  {
    seq(|attempts| + 1, k requires 0 <= k <= |attempts| => |HashesAfter(o, hashes, attempts, k)|)
  }

  function LeftCopies(o: Crypto, hashes: seq<string>, attempts: seq<Attempt>, code: string): (r: seq<nat>)
    ensures |r| == |attempts| + 1
    ensures forall k :: 0 <= k <= |attempts| ==> r[k] == Copies(o, code, HashesAfter(o, hashes, attempts, k))
  {
    seq(|attempts| + 1, k requires 0 <= k <= |attempts| => Copies(o, code, HashesAfter(o, hashes, attempts, k)))
  }

  lemma {:induction false} StepConserves(o: Crypto, hashes: seq<string>, attempts: seq<Attempt>, i: nat, code: string)
    requires i < |attempts|
    ensures |HashesAfter(o, hashes, attempts, i + 1)| + Flag(Passes(o, hashes, attempts, i))
        == |HashesAfter(o, hashes, attempts, i)|
    ensures Copies(o, code, HashesAfter(o, hashes, attempts, i + 1))
            + Flag(Passes(o, hashes, attempts, i) && SameHash(o, attempts[i].code, code))
         == Copies(o, code, HashesAfter(o, hashes, attempts, i))
  {
    ConsumeConserves(o, HashesAfter(o, hashes, attempts, i), attempts[i], code);
  }

  lemma {:induction false} SizesStep(o: Crypto, hashes: seq<string>, attempts: seq<Attempt>, i: nat)
    requires i < |attempts|
    ensures LeftSizes(o, hashes, attempts)[i + 1] + PassFlags(o, hashes, attempts, None)[i]
        == LeftSizes(o, hashes, attempts)[i]
  {
    StepConserves(o, hashes, attempts, i, "");
  }

  lemma {:induction false} CopiesStep(o: Crypto, hashes: seq<string>, attempts: seq<Attempt>, i: nat, code: string)
    requires i < |attempts|
    ensures LeftCopies(o, hashes, attempts, code)[i + 1] + PassFlags(o, hashes, attempts, Some(code))[i]
         == LeftCopies(o, hashes, attempts, code)[i]
  {
    StepConserves(o, hashes, attempts, i, code);
  }

  /** Codes are conserved: over any run, successes and hashes left together are the codes issued, in all and for each
      code; so no code passes more often than it was issued. */
  lemma {:induction false} CodesConserved(o: Crypto, hashes: seq<string>, attempts: seq<Attempt>, code: string)
    ensures var left := HashesAfter(o, hashes, attempts, |attempts|);
            && Passed(o, hashes, attempts, |attempts|) + |left| == |hashes|
            && PassedWith(o, hashes, attempts, |attempts|, code) + Copies(o, code, left) == Copies(o, code, hashes)
  {
    forall i | 0 <= i < |attempts|
      ensures LeftSizes(o, hashes, attempts)[i + 1] + PassFlags(o, hashes, attempts, None)[i]
          == LeftSizes(o, hashes, attempts)[i]
      ensures LeftCopies(o, hashes, attempts, code)[i + 1] + PassFlags(o, hashes, attempts, Some(code))[i]
           == LeftCopies(o, hashes, attempts, code)[i]
    {
      SizesStep(o, hashes, attempts, i);
      CopiesStep(o, hashes, attempts, i, code);
    }
    Telescopes(LeftSizes(o, hashes, attempts), PassFlags(o, hashes, attempts, None), |attempts|);
    Telescopes(LeftCopies(o, hashes, attempts, code), PassFlags(o, hashes, attempts, Some(code)), |attempts|);
    assert HashesAfter(o, hashes, attempts, 0) == hashes;
  }

  // ---------- the second factor ----------

  /** Whether the second factor passes, and the settings afterwards. */
  function SecondFactor(o: Crypto, secret: string, stored: Option<string>, hashes: seq<string>, code: string, now: nat,
                        save: bool)
    : (bool, Option<string>, seq<string>)
  {
    if TrimSpace(code) == "" then (false, stored, hashes)
    else if |code| == DIGITS && Digits(code) then
      var r := Recorded(o, stored, NormalizeSecret(secret), code, now, save);
      (r.0.Some?, r.1, hashes)
    else if |NormalizeRecoveryCode(code)| == RECOVERY_LEN then
      var c := Consume(o, hashes, Attempt(code, save));
      (c.0, stored, c.1)
    else (false, stored, hashes)
  }

  /** The six digits of a step later than the last one recorded, which becomes the recorded one; a recorded step more
      than two ahead of the clock counts for nothing. */
  ghost predicate OneTimePass(o: Crypto, secret: string, stored: Option<string>, code: string, now: nat,
                              after: Option<string>)
  {
    var last := if stored.Some? then AtoiValue(stored.value) else 0;
    && NormalizeSecret(secret) != ""
    && exists step :: && FirstRight(o, secret, code, now, step) && step > (if last > now / 30 + 2 then 0 else last)
                      && after == Some(Itoa(step))
  }

  /** Ten letters and digits whose digest is stored: its first copy goes, the others stay in order. */
  ghost predicate RecoveryPass(o: Crypto, code: string, hashes: seq<string>, left: seq<string>) {
    var n := NormalizeRecoveryCode(code);
    && |n| == 10
    && exists i :: && 0 <= i < |hashes| && o.digest(n) == ToLower(TrimSpace(hashes[i]))
                   && (forall j :: 0 <= j < i ==> o.digest(n) != ToLower(TrimSpace(hashes[j])))
                   && left == hashes[..i] + hashes[i + 1..]
  }

  predicate SixDigits(code: string) {
    |code| == 6 && forall i :: 0 <= i < 6 ==> '0' <= code[i] <= '9'
  }

  /** What lets a login pass: the settings can be written, and the code is a new one-time code, or a recovery code that
      is left. */
  ghost predicate Admits(o: Crypto, secret: string, stored: Option<string>, hashes: seq<string>, code: string, now: nat,
                         save: bool, after: Option<string>, left: seq<string>)
  {
    && save
    && if SixDigits(code) then left == hashes && OneTimePass(o, secret, stored, code, now, after)
       else after == stored && RecoveryPass(o, code, hashes, left)
  }

  lemma {:induction false} SecretTwice(s: string)
    ensures NormalizeSecret(NormalizeSecret(s)) == NormalizeSecret(s)
  {
    if s != "" {
      SecretTwice(s[1..]);
      if !(s[0] == ' ' || s[0] == '-' || s[0] == '\t') {
        var rest := NormalizeSecret(s[1..]);
        assert ([Upper(s[0])] + rest)[1..] == rest;
      }
    }
  }

  lemma {:induction false} SpaceNormal(s: string)
    ensures NormalizeRecoveryCode(s[..LeadingSpace(s)]) == ""
    ensures NormalizeRecoveryCode(s[|s| - TrailingSpace(s)..]) == ""
  {
    BlankNormal(s[..LeadingSpace(s)]);
    BlankNormal(s[|s| - TrailingSpace(s)..]);
  }

  lemma {:induction false} BlankNormal(s: string)
    requires forall i :: 0 <= i < |s| ==> !CodeChar(Upper(s[i]))
    ensures NormalizeRecoveryCode(s) == ""
  {
    if s != "" {
      BlankNormal(s[1..]);
    }
  }

  /** White space around a recovery code says nothing. */
  lemma {:induction false} TrimLeftNormal(s: string)
    ensures NormalizeRecoveryCode(TrimLeft(s)) == NormalizeRecoveryCode(s)
    decreases |s|
  {
    var n := LeadingSpace(s);
    if n != 0 {
      TrimLeftNormal(s[n..]);
      SpaceNormal(s);
      NormalizeJoin(s[..n], s[n..]);
      assert s[..n] + s[n..] == s;
    }
  }

  lemma {:induction false} TrimRightNormal(s: string)
    ensures NormalizeRecoveryCode(TrimRight(s)) == NormalizeRecoveryCode(s)
    decreases |s|
  {
    var n := TrailingSpace(s);
    if n != 0 {
      TrimRightNormal(s[..|s| - n]);
      SpaceNormal(s);
      NormalizeJoin(s[..|s| - n], s[|s| - n..]);
      assert s[..|s| - n] + s[|s| - n..] == s;
    }
  }

  lemma {:induction false} FirstMatch(o: Crypto, code: string, hashes: seq<string>) returns (i: nat)
    requires TakeFirst(o, code, hashes).Some?
    ensures i < |hashes| && Matches(o, code, hashes[i]) && forall j :: 0 <= j < i ==> !Matches(o, code, hashes[j])
  {
    if Matches(o, code, hashes[0]) {
      i := 0;
    } else {
      var k := FirstMatch(o, code, hashes[1..]);
      i := k + 1;
      forall j | 0 <= j < i
        ensures !Matches(o, code, hashes[j])
      {
        assert j > 0 ==> hashes[j] == hashes[1..][j - 1];
      }
    }
  }

  lemma {:induction false} DigitsTrimmed(code: string)
    requires SixDigits(code)
    ensures TrimSpace(code) == code
  {
    TrimSpaceFixed(code);
  }

  lemma {:induction false} SameKey(o: Crypto, secret: string, code: string, now: nat, step: int)
    ensures FirstRight(o, NormalizeSecret(secret), code, now, step) <==> FirstRight(o, secret, code, now, step)
  {
    SecretTwice(secret);
    assert forall s :: RightFor(o, NormalizeSecret(secret), code, s) <==> RightFor(o, secret, code, s);
  }

  lemma {:induction false} CodeAdmits(o: Crypto, secret: string, stored: Option<string>, code: string, now: nat,
                                      save: bool, after: Option<string>)
    requires SixDigits(code)
    ensures var r := Recorded(o, stored, NormalizeSecret(secret), code, now, save);
            && (r.0.Some? && r.1 == after <==> save && OneTimePass(o, secret, stored, code, now, after))
            && (r.0.None? ==> r.1 == stored)
  {
    var key := NormalizeSecret(secret);
    var v := Verify(o, key, code, now);
    DigitsTrimmed(code);
    forall step
      ensures v == Some(step) <==> FirstRight(o, secret, code, now, step)
    {
      VerifyIff(o, key, code, now, step);
      SameKey(o, secret, code, now, step);
    }
    if v.Some? {
      assert FirstRight(o, secret, code, now, v.value);
    }
  }

  lemma {:induction false} RecoveryAdmits(o: Crypto, code: string, hashes: seq<string>, left: seq<string>)
    requires |NormalizeRecoveryCode(code)| == 10
    ensures TakeFirst(o, code, hashes) == Some(left) <==> RecoveryPass(o, code, hashes, left)
  {
    if TakeFirst(o, code, hashes).Some? {
      var i := FirstMatch(o, code, hashes);
      TakeAt(o, code, hashes, i);
    }
    if RecoveryPass(o, code, hashes, left) {
      var i :| && 0 <= i < |hashes| && Matches(o, code, hashes[i])
               && (forall j :: 0 <= j < i ==> !Matches(o, code, hashes[j])) && left == hashes[..i] + hashes[i + 1..];
      TakeAt(o, code, hashes, i);
    }
  }

  lemma {:induction false} PassesIff(o: Crypto, secret: string, stored: Option<string>, hashes: seq<string>,
                                           code: string, now: nat, save: bool, after: Option<string>, left: seq<string>)
    ensures SecondFactor(o, secret, stored, hashes, code, now, save) == (true, after, left)
            <==> Admits(o, secret, stored, hashes, code, now, save, after, left)
    ensures SecondFactor(o, secret, stored, hashes, code, now, save).0
            || SecondFactor(o, secret, stored, hashes, code, now, save) == (false, stored, hashes)
  {
    if SixDigits(code) {
      DigitsTrimmed(code);
      CodeAdmits(o, secret, stored, code, now, save, after);
    } else {
      TrimLeftNormal(code);
      TrimRightNormal(TrimLeft(code));
      if |NormalizeRecoveryCode(code)| == 10 {
        RecoveryAdmits(o, code, hashes, left);
      }
    }
  }

  /** A login passes exactly when it is admitted, and leaves exactly the settings it is admitted with; a refused one
      leaves both as they were. */
  lemma {:induction false} SecondFactorIff(o: Crypto, secret: string, stored: Option<string>, hashes: seq<string>,
                                           code: string, now: nat, save: bool)
    ensures var f := SecondFactor(o, secret, stored, hashes, code, now, save);
            if f.0 then Admits(o, secret, stored, hashes, code, now, save, f.1, f.2)
            else f.1 == stored && f.2 == hashes
    ensures forall after, left | Admits(o, secret, stored, hashes, code, now, save, after, left) ::
              SecondFactor(o, secret, stored, hashes, code, now, save) == (true, after, left)
  {
    var f := SecondFactor(o, secret, stored, hashes, code, now, save);
    PassesIff(o, secret, stored, hashes, code, now, save, f.1, f.2);
    forall after, left | Admits(o, secret, stored, hashes, code, now, save, after, left)
      ensures f == (true, after, left)
    {
      PassesIff(o, secret, stored, hashes, code, now, save, after, left);
    }
  }

  /** Whatever is admitted is spent: the recorded step is another one, or one recovery code fewer is left. */
  lemma {:induction false} AdmittedIsSpent(o: Crypto, secret: string, stored: Option<string>, hashes: seq<string>,
                                           code: string, now: nat, save: bool, after: Option<string>, left: seq<string>)
    requires Admits(o, secret, stored, hashes, code, now, save, after, left) && now <= MAX_INT64
    ensures if SixDigits(code) then after != stored && left == hashes else after == stored && |left| + 1 == |hashes|
  {
    if SixDigits(code) {
      var step :| FirstRight(o, secret, code, now, step) && after == Some(Itoa(step))
                  && step > (if LastStep(stored) > now / 30 + 2 then 0 else LastStep(stored));
      StepStored(step, now);
    }
  }

  // ---------- the server's settings ----------

  class Settings {
    const o: Crypto
    var secret: string
    var lastStep: Option<string>
    var hashes: seq<string>

    constructor (o: Crypto, secret: string, lastStep: Option<string>, hashes: seq<string>)
      ensures this.o == o && this.secret == secret && this.lastStep == lastStep && this.hashes == hashes
    {
      this.o, this.secret, this.lastStep, this.hashes := o, secret, lastStep, hashes;
    }

    /** verifyCode. Without recording the setting is neither read nor written. */
    method VerifyCode(key: string, code: string, now: nat, record: bool, save: bool) returns (err: Option<CodeError>)
      modifies this`lastStep
      ensures !record ==> lastStep == old(lastStep)
                          && err == if key == "" then Some(NotSetup)
                                    else if Verify(o, key, code, now).None? then Some(BadCode)
                                    else None
      ensures record ==> && lastStep == Recorded(o, old(lastStep), key, code, now, save).1
                         && (err.None? <==> Recorded(o, old(lastStep), key, code, now, save).0.Some?)
                         && (Judge(o, old(lastStep), key, code, now).Err? ==>
                             err == Some(Judge(o, old(lastStep), key, code, now).error))
    {
      if key == "" {
        return Some(NotSetup);
      }
      var step := VerifyLoop(o, key, code, now);
      if step.None? {
        return Some(BadCode);
      }
      if !record {
        return None;
      }
      var last := 0;
      if lastStep.Some? {
        last := AtoiValue(lastStep.value);
      }
      if last > Counter(now) + 2 {
        last := 0;
      }
      if step.value <= last {
        return Some(Reused);
      }
      if !save {
        return Some(NotStored);
      }
      lastStep := Some(Itoa(step.value));
      err := None;
    }

    /** consumeRecoveryCode. */
    method ConsumeRecoveryCode(code: string, save: bool) returns (ok: bool)
      modifies this`hashes
      ensures (ok, hashes) == Consume(o, old(hashes), Attempt(code, save))
    {
      var idx := MatchRecoveryCode(o, code, hashes);
      TakeNone(o, code, hashes);
      if idx < 0 {
        return false;
      }
      TakeAt(o, code, hashes, idx);
      var rest := hashes[..idx];
      rest := rest + hashes[idx + 1..];
      if !save {
        return false;
      }
      hashes := rest;
      ok := true;
    }

    /** checkSecondFactor: six digits are a one-time code, ten letters and digits a recovery code, anything else is
        refused. */
    method CheckSecondFactor(code: string, now: nat, save: bool) returns (err: Option<CodeError>)
      modifies this`lastStep, this`hashes
      ensures err.None? ==> Admits(o, secret, old(lastStep), old(hashes), code, now, save, lastStep, hashes)
      ensures err.Some? ==> lastStep == old(lastStep) && hashes == old(hashes)
      ensures forall after, left | Admits(o, secret, old(lastStep), old(hashes), code, now, save, after, left) ::
                err.None? && lastStep == after && hashes == left
    {
      SecondFactorIff(o, secret, lastStep, hashes, code, now, save);
      if TrimSpace(code) == "" {
        return Some(BadCode);
      }
      if |code| == DIGITS && Digits(code) {
        err := VerifyCode(NormalizeSecret(secret), code, now, true, save);
        return;
      }
      var n := NormalizeLoop(code);
      if |n| == RECOVERY_LEN {
        var ok := ConsumeRecoveryCode(code, save);
        if ok {
          return None;
        }
      }
      err := Some(BadCode);
    }
  }
}
