/** Password login with a lockout, and second-factor backup codes. */
module Accounts {
  import opened Prelude

  type Hash = string

  /** digest stands for SHA-256; nothing is assumed about it. */
  datatype Config = Config(maxLoginAttempts: int, lockoutDuration: int, digest: string -> Hash)

  /** The columns of a user row that a login reads or writes. */
  datatype Account = Account(
    active: bool,
    failedAttempts: int,
    lockedUntil: Option<int>,
    mfaEnabled: bool,
    hasSecret: bool,
    backupCodes: seq<Hash>)

  /**
   One login attempt. The two times are the clock readings of the lock check and of the lock update; passwordOk,
   totpOk and sessionOk are the answers of the password hash, the one-time-password library and the session store.
   */
  datatype Attempt = Attempt(
    checkTime: int, updateTime: int, passwordOk: bool, token: string, totpOk: bool, sessionOk: bool)

  datatype Result = Locked | Disabled | WrongPassword | TokenRequired | WrongToken | SessionFailed | LoggedIn

  // ----- backup codes -----

  function Upper(c: char): char {
    if 'a' <= c <= 'z' then (c as int - 'a' as int + 'A' as int) as char else c
  }

  function Lower(c: char): char {
    if 'A' <= c <= 'Z' then (c as int - 'A' as int + 'a' as int) as char else c
  }

  function Clean(code: string): string {
    if code == "" then ""
    else (if code[0] == '-' then "" else [Upper(code[0])]) + Clean(code[1..])
  }

  function CodeHash(cfg: Config, code: string): Hash {
    cfg.digest(Clean(code))
  }

  function HashCodes(cfg: Config, codes: seq<string>): seq<Hash> {
    seq(|codes|, i requires 0 <= i < |codes| => CodeHash(cfg, codes[i]))
  }

  function RemoveFirst(codes: seq<Hash>, h: Hash): seq<Hash> {
    if codes == [] then [] else if codes[0] == h then codes[1..] else [codes[0]] + RemoveFirst(codes[1..], h)
  }

  function Lowered(code: string): string {
    if code == "" then "" else [Lower(code[0])] + Lowered(code[1..])
  }

  function Undashed(code: string): string {
    if code == "" then "" else (if code[0] == '-' then "" else [code[0]]) + Undashed(code[1..])
  }

  // ----- one login -----

  predicate LockedAt(a: Account, now: int) {
    a.lockedUntil.Some? && a.lockedUntil.value > now
  }

  function Fail(cfg: Config, a: Account, now: int): Account {
    var failed := a.failedAttempts + 1;
    a.(failedAttempts := failed,
       lockedUntil := if failed >= cfg.maxLoginAttempts then Some(now + cfg.lockoutDuration) else a.lockedUntil)
  }

  predicate UsesBackupCode(cfg: Config, a: Account, t: Attempt) {
    a.mfaEnabled && t.token != "" && !(a.hasSecret && t.totpOk) && CodeHash(cfg, t.token) in a.backupCodes
  }

  function ResultOf(cfg: Config, a: Account, t: Attempt): Result {
    if LockedAt(a, t.checkTime) then Locked
    else if !a.active then Disabled
    else if !t.passwordOk then WrongPassword
    else if a.mfaEnabled && t.token == "" then TokenRequired
    else if a.mfaEnabled && !(a.hasSecret && t.totpOk) && CodeHash(cfg, t.token) !in a.backupCodes then WrongToken
    else if t.sessionOk then LoggedIn
    else SessionFailed
  }

  function After(cfg: Config, a: Account, t: Attempt): Account {
    match ResultOf(cfg, a, t)
    case WrongPassword => Fail(cfg, a, t.updateTime)
    case LoggedIn => Consume(cfg, a, t).(failedAttempts := 0, lockedUntil := None)
    case SessionFailed => Consume(cfg, a, t)
    case _ => a
  }

  function Consume(cfg: Config, a: Account, t: Attempt): Account {
    if UsesBackupCode(cfg, a, t) then a.(backupCodes := RemoveFirst(a.backupCodes, CodeHash(cfg, t.token))) else a
  }

  function Run(cfg: Config, a: Account, ts: seq<Attempt>): Account {
    if ts == [] then a else After(cfg, Run(cfg, a, ts[..|ts| - 1]), ts[|ts| - 1])
  }

  function ResultAt(cfg: Config, a: Account, ts: seq<Attempt>, i: nat): Result
    requires i < |ts|
  {
    ResultOf(cfg, Run(cfg, a, ts[..i]), ts[i])
  }

  // ----- how often a wrong password is looked at -----

  /** The check times of the attempts that failed on the password. */
  ghost function Failures(cfg: Config, a: Account, ts: seq<Attempt>): seq<int> {
    if ts == [] then []
    else
      var front, last := ts[..|ts| - 1], ts[|ts| - 1];
      Failures(cfg, a, front) +
      if ResultOf(cfg, Run(cfg, a, front), last) == WrongPassword then [last.checkTime] else []
  }

  ghost predicate NoSession(cfg: Config, a: Account, ts: seq<Attempt>) {
    forall i | 0 <= i < |ts| :: ResultAt(cfg, a, ts, i) != LoggedIn
  }

  ghost predicate Timely(ts: seq<Attempt>) {
    && (forall i | 0 <= i < |ts| :: ts[i].checkTime <= ts[i].updateTime)
    && (forall i | 0 < i < |ts| :: ts[i - 1].updateTime <= ts[i].checkTime)
  }

  function Threshold(cfg: Config): nat {
    if cfg.maxLoginAttempts < 1 then 1 else cfg.maxLoginAttempts
  }

  /** From the m-th failure on, consecutive failures are a lockout apart. */
  ghost predicate Throttled(cfg: Config, f: seq<int>) {
    forall i | Threshold(cfg) <= i < |f| :: f[i] >= f[i - 1] + cfg.lockoutDuration
  }

  /** What a session-free run keeps: the counter counts the failures, and past the threshold the lock is in force. */
  ghost predicate LockHolds(cfg: Config, b: Account, f: seq<int>, clock: int) {
    && b.failedAttempts == |f|
    && (forall t | t in f :: t <= clock)
    && (|f| >= Threshold(cfg) ==>
          b.lockedUntil.Some? && b.lockedUntil.value >= f[|f| - 1] + cfg.lockoutDuration)
  }

  lemma NoSessionFront(cfg: Config, a: Account, ts: seq<Attempt>)
    requires ts != [] && NoSession(cfg, a, ts)
    ensures NoSession(cfg, a, ts[..|ts| - 1])
    ensures ResultOf(cfg, Run(cfg, a, ts[..|ts| - 1]), ts[|ts| - 1]) != LoggedIn
  {
    var front := ts[..|ts| - 1];
    forall i | 0 <= i < |front| ensures ResultAt(cfg, a, front, i) != LoggedIn {
      assert front[..i] == ts[..i];
      assert ResultAt(cfg, a, ts, i) != LoggedIn;
    }
    assert ResultAt(cfg, a, ts, |ts| - 1) != LoggedIn;
  }

  /** One attempt in a session-free run. */
  lemma StepThrottled(cfg: Config, b: Account, f: seq<int>, t: Attempt, clock: int)
    requires LockHolds(cfg, b, f, t.checkTime) && Throttled(cfg, f)
    requires ResultOf(cfg, b, t) != LoggedIn && t.checkTime <= t.updateTime <= clock
    ensures var g := f + if ResultOf(cfg, b, t) == WrongPassword then [t.checkTime] else [];
            Throttled(cfg, g) && LockHolds(cfg, After(cfg, b, t), g, clock)
  {
  }

  lemma {:induction false} RunThrottled(cfg: Config, a: Account, ts: seq<Attempt>, clock: int)
    requires a.failedAttempts == 0
    requires Timely(ts) && NoSession(cfg, a, ts)
    requires ts != [] ==> ts[|ts| - 1].updateTime <= clock
    ensures Throttled(cfg, Failures(cfg, a, ts))
    ensures LockHolds(cfg, Run(cfg, a, ts), Failures(cfg, a, ts), clock)
  {
    if ts == [] {
    } else {
      var front := ts[..|ts| - 1];
      var last := ts[|ts| - 1];
      NoSessionFront(cfg, a, ts);
      RunThrottled(cfg, a, front, last.checkTime);
      StepThrottled(cfg, Run(cfg, a, front), Failures(cfg, a, front), last, clock);
    }
  }

  ghost function CountUpTo(f: seq<int>, t: int): nat {
    if f == [] then 0 else CountUpTo(f[..|f| - 1], t) + if f[|f| - 1] <= t then 1 else 0
  }

  lemma CountAtMost(f: seq<int>, t: int)
    ensures CountUpTo(f, t) <= |f|
  {
    if f == [] {
    } else {
      CountAtMost(f[..|f| - 1], t);
    }
  }

  lemma {:induction false} FailuresGrow(cfg: Config, f: seq<int>, k: nat)
    requires Throttled(cfg, f) && Threshold(cfg) - 1 + k < |f|
    ensures f[Threshold(cfg) - 1 + k] >= f[Threshold(cfg) - 1] + k * cfg.lockoutDuration
  {
    if k == 0 {
    } else {
      FailuresGrow(cfg, f, k - 1);
      assert k * cfg.lockoutDuration == (k - 1) * cfg.lockoutDuration + cfg.lockoutDuration;
    }
  }

  lemma PastQuotient(x: int, l: int, k: int)
    requires l > 0 && k > x / l
    ensures k * l > x
  {
    var q := x / l;
    var more := k - q - 1;
    assert x == q * l + x % l;
    assert more * l >= 0;
    assert k * l == q * l + l + more * l;
  }

  lemma {:induction false} ThrottledCount(cfg: Config, f: seq<int>, t: int)
    requires cfg.lockoutDuration > 0 && Throttled(cfg, f)
    requires |f| >= Threshold(cfg) && f[Threshold(cfg) - 1] <= t
    ensures CountUpTo(f, t) <= Threshold(cfg) + (t - f[Threshold(cfg) - 1]) / cfg.lockoutDuration
    decreases |f|
  {
    var m, l := Threshold(cfg), cfg.lockoutDuration;
    var extra := (t - f[m - 1]) / l;
    if |f| <= m + extra {
      CountAtMost(f, t);
    } else {
      var k := |f| - m;
      FailuresGrow(cfg, f, k);
      PastQuotient(t - f[m - 1], l, k);
      ThrottledCount(cfg, f[..|f| - 1], t);
    }
  }

  /** With a positive lockout, a session-free run looks at no more wrong passwords than this by time t. */
  lemma FailuresBounded(cfg: Config, a: Account, ts: seq<Attempt>, t: int)
    requires a.failedAttempts == 0 && cfg.lockoutDuration > 0
    requires Timely(ts) && NoSession(cfg, a, ts)
    ensures var f := Failures(cfg, a, ts);
            |f| >= Threshold(cfg) && f[Threshold(cfg) - 1] <= t ==>
            CountUpTo(f, t) <= Threshold(cfg) + (t - f[Threshold(cfg) - 1]) / cfg.lockoutDuration
  {
    var f := Failures(cfg, a, ts);
    RunThrottled(cfg, a, ts, if ts == [] then 0 else ts[|ts| - 1].updateTime);
    if |f| >= Threshold(cfg) && f[Threshold(cfg) - 1] <= t {
      ThrottledCount(cfg, f, t);
    }
  }

  // ----- backup codes are consumed -----

  /** How many attempts of a run were let through by a code with this hash. */
  ghost function Accepted(cfg: Config, a: Account, ts: seq<Attempt>, h: Hash): nat {
    if ts == [] then 0
    else
      var front, last := ts[..|ts| - 1], ts[|ts| - 1];
      Accepted(cfg, a, front, h) + if LetThrough(cfg, Run(cfg, a, front), last, h) then 1 else 0
  }

  predicate LetThrough(cfg: Config, a: Account, t: Attempt, h: Hash) {
    (ResultOf(cfg, a, t) == LoggedIn || ResultOf(cfg, a, t) == SessionFailed) &&
    UsesBackupCode(cfg, a, t) && CodeHash(cfg, t.token) == h
  }

  lemma {:induction false} RemovesOne(codes: seq<Hash>, h: Hash)
    requires h in codes
    ensures multiset(RemoveFirst(codes, h)) == multiset(codes) - multiset{h}
  {
    assert codes == [codes[0]] + codes[1..];
    if codes[0] == h {
    } else {
      RemovesOne(codes[1..], h);
    }
  }

  lemma LoginConserves(cfg: Config, b: Account, t: Attempt, h: Hash)
    ensures multiset(After(cfg, b, t).backupCodes)[h] + (if LetThrough(cfg, b, t, h) then 1 else 0) ==
            multiset(b.backupCodes)[h]
  {
    var passed := ResultOf(cfg, b, t) == LoggedIn || ResultOf(cfg, b, t) == SessionFailed;
    assert After(cfg, b, t).backupCodes == if passed then Consume(cfg, b, t).backupCodes else b.backupCodes;
    if passed && UsesBackupCode(cfg, b, t) {
      ConsumeRemoves(cfg, b, t, h);
    }
  }

  lemma ConsumeRemoves(cfg: Config, b: Account, t: Attempt, h: Hash)
    requires UsesBackupCode(cfg, b, t)
    ensures multiset(Consume(cfg, b, t).backupCodes)[h] + (if CodeHash(cfg, t.token) == h then 1 else 0) ==
            multiset(b.backupCodes)[h]
  {
    RemovesOne(b.backupCodes, CodeHash(cfg, t.token));
  }

  /** Acceptances of a code and its remaining copies always add up to its initial copies. */
  lemma {:induction false} CodesConserved(cfg: Config, a: Account, ts: seq<Attempt>, h: Hash)
    ensures Accepted(cfg, a, ts, h) + multiset(Run(cfg, a, ts).backupCodes)[h] == multiset(a.backupCodes)[h]
  {
    if ts == [] {
    } else {
      var front, last := ts[..|ts| - 1], ts[|ts| - 1];
      var b := Run(cfg, a, front);
      CodesConserved(cfg, a, front, h);
      LoginConserves(cfg, b, last, h);
    }
  }

  lemma {:induction false} CleanLowered(code: string)
    ensures Clean(Lowered(code)) == Clean(code)
  {
    if code == "" {
    } else {
      CleanLowered(code[1..]);
      assert ([Lower(code[0])] + Lowered(code[1..]))[1..] == Lowered(code[1..]);
    }
  }

  lemma {:induction false} CleanUndashed(code: string)
    ensures Clean(Undashed(code)) == Clean(code)
  {
    if code == "" {
    } else {
      CleanUndashed(code[1..]);
      if code[0] == '-' {
        assert Undashed(code) == Undashed(code[1..]) && Clean(code) == Clean(code[1..]);
      } else {
        assert ([code[0]] + Undashed(code[1..]))[1..] == Undashed(code[1..]);
      }
    }
  }

  ghost predicate Canonical(code: string) {
    forall c | c in code :: c != '-' && !('a' <= c <= 'z')
  }

  /** Cleaning yields upper case without dashes, and leaves a code of that form alone. */
  lemma {:induction false} CleanCanonical(code: string)
    ensures Canonical(Clean(code))
    ensures Canonical(code) ==> Clean(code) == code
  {
    if code == "" {
    } else {
      CleanCanonical(code[1..]);
      assert code == [code[0]] + code[1..];
      assert forall c | c in code[1..] :: c in code;
      assert code[0] in code;
    }
  }

  /** The spellings of a code that a user may type: with or without dashes, in either case. */
  ghost predicate Spells(typed: string, code: string) {
    typed == code || typed == Lowered(code) || typed == Undashed(code) || typed == Lowered(Undashed(code))
  }

  lemma SpellsClean(typed: string, code: string)
    requires Spells(typed, code)
    ensures Clean(typed) == Clean(code)
  {
    CleanLowered(code);
    CleanUndashed(code);
    CleanLowered(Undashed(code));
  }

  /** An attempt that gets as far as the second factor and has to rely on a backup code there. */
  ghost predicate ReliesOnCode(a: Account, t: Attempt) {
    && !LockedAt(a, t.checkTime) && a.active && t.passwordOk && a.mfaEnabled
    && t.token != "" && !(a.hasSecret && t.totpOk)
  }

  /**
   After any run, such an attempt with some spelling of a code passes the second factor exactly when the code has been
   accepted fewer times than it was issued.
   */
  lemma CodeWorksUntilConsumed(cfg: Config, a: Account, codes: seq<string>, ts: seq<Attempt>, code: string, t: Attempt)
    requires a.backupCodes == HashCodes(cfg, codes)
    requires ReliesOnCode(Run(cfg, a, ts), t) && Spells(t.token, code)
    ensures var h := CodeHash(cfg, code);
            var r := ResultOf(cfg, Run(cfg, a, ts), t);
            && (Accepted(cfg, a, ts, h) < multiset(HashCodes(cfg, codes))[h] <==>
                r == if t.sessionOk then LoggedIn else SessionFailed)
            && (Accepted(cfg, a, ts, h) == multiset(HashCodes(cfg, codes))[h] <==> r == WrongToken)
            && (code in codes ==> multiset(HashCodes(cfg, codes))[h] > 0)
  {
    SpellsClean(t.token, code);
    CodesConserved(cfg, a, ts, CodeHash(cfg, code));
    if code in codes {
      var i :| 0 <= i < |codes| && codes[i] == code;
      assert HashCodes(cfg, codes)[i] == CodeHash(cfg, code);
    }
  }

  // ----- what each answer of a login means -----

  ghost predicate LockedNow(a: Account, t: Attempt) {
    a.lockedUntil.Some? && t.checkTime < a.lockedUntil.value
  }

  /** The second factor: not required, or a valid one-time password, or a code that is not used up. */
  ghost predicate SecondFactor(a: Account, t: Attempt, codeLeft: bool) {
    a.mfaEnabled ==> t.token != "" && ((a.hasSecret && t.totpOk) || codeLeft)
  }

  /**
   After any run: a login reaches the session store if and only if no lock is in force, the account is active, the
   password is right and the second factor holds, a backup code counting if it was accepted fewer times than it was
   issued. Every other answer names the first of these that is missing; a lock refuses the right password too.
   */
  lemma LoginExactly(cfg: Config, a: Account, ts: seq<Attempt>, t: Attempt)
    ensures var b := Run(cfg, a, ts);
            var r := ResultOf(cfg, b, t);
            var h := CodeHash(cfg, t.token);
            var codeLeft := Accepted(cfg, a, ts, h) < multiset(a.backupCodes)[h];
            var known := !LockedNow(b, t) && b.active && t.passwordOk;
            && (r == LoggedIn <==> known && SecondFactor(b, t, codeLeft) && t.sessionOk)
            && (r == SessionFailed <==> known && SecondFactor(b, t, codeLeft) && !t.sessionOk)
            && (r == Locked <==> LockedNow(b, t))
            && (r == Disabled <==> !LockedNow(b, t) && !b.active)
            && (r == WrongPassword <==> !LockedNow(b, t) && b.active && !t.passwordOk)
            && (r == TokenRequired <==> known && b.mfaEnabled && t.token == "")
            && (r == WrongToken <==>
                known && b.mfaEnabled && t.token != "" && !(b.hasSecret && t.totpOk) && !codeLeft)
  {
    CodesConserved(cfg, a, ts, CodeHash(cfg, t.token));
  }

  /** The times at which the attempts since the last session failed on the password and were counted. */
  ghost function SinceSession(cfg: Config, a: Account, ts: seq<Attempt>): seq<int> {
    if ts == [] then []
    else
      var front, last := ts[..|ts| - 1], ts[|ts| - 1];
      match ResultOf(cfg, Run(cfg, a, front), last)
      case LoggedIn => []
      case WrongPassword => SinceSession(cfg, a, front) + [last.updateTime]
      case _ => SinceSession(cfg, a, front)
  }

  /** The counter counts the failures, and from the threshold on the lock runs from the last of them. */
  ghost predicate CountersExact(cfg: Config, b: Account, failures: seq<int>) {
    && b.failedAttempts == |failures|
    && b.lockedUntil == if |failures| >= Threshold(cfg)
                        then Some(failures[|failures| - 1] + cfg.lockoutDuration) else None
  }

  lemma AfterCounters(cfg: Config, b: Account, failures: seq<int>, t: Attempt)
    requires CountersExact(cfg, b, failures)
    ensures CountersExact(cfg, After(cfg, b, t),
                          match ResultOf(cfg, b, t)
                          case LoggedIn => []
                          case WrongPassword => failures + [t.updateTime]
                          case _ => failures)
  {
  }

  /** In every run, sessions included, counter and lock are those of the wrong passwords since the last session. */
  lemma {:induction false} RunCounters(cfg: Config, a: Account, ts: seq<Attempt>)
    requires a.failedAttempts == 0 && a.lockedUntil == None
    ensures CountersExact(cfg, Run(cfg, a, ts), SinceSession(cfg, a, ts))
  {
    if ts == [] {
    } else {
      RunCounters(cfg, a, ts[..|ts| - 1]);
      AfterCounters(cfg, Run(cfg, a, ts[..|ts| - 1]), SinceSession(cfg, a, ts[..|ts| - 1]), ts[|ts| - 1]);
    }
  }

  /** So an attempt is refused as locked exactly within a lockout of the last of enough failures. */
  lemma LockedExactly(cfg: Config, a: Account, ts: seq<Attempt>, t: Attempt)
    requires a.failedAttempts == 0 && a.lockedUntil == None
    ensures var f := SinceSession(cfg, a, ts);
            ResultOf(cfg, Run(cfg, a, ts), t) == Locked <==>
            |f| >= Threshold(cfg) && t.checkTime < f[|f| - 1] + cfg.lockoutDuration
  {
    RunCounters(cfg, a, ts);
  }

  /** Nothing else in the row changes. */
  lemma {:induction false} RunKeepsRest(cfg: Config, a: Account, ts: seq<Attempt>)
    ensures var b := Run(cfg, a, ts);
            b.active == a.active && b.mfaEnabled == a.mfaEnabled && b.hasSecret == a.hasSecret
  {
    if ts == [] {
    } else {
      RunKeepsRest(cfg, a, ts[..|ts| - 1]);
    }
  }

  // ----- the account object -----

  class User {
    const cfg: Config
    var active: bool
    var failedLoginAttempts: int
    var accountLockedUntil: Option<int>
    var mfaEnabled: bool
    var hasSecret: bool
    var backupCodes: seq<Hash>

    ghost function View(): Account
      reads this
    {
      Account(active, failedLoginAttempts, accountLockedUntil, mfaEnabled, hasSecret, backupCodes)
    }

    constructor (config: Config)
      ensures cfg == config && View() == Account(true, 0, None, false, false, [])
    {
      cfg := config;
      active, failedLoginAttempts, accountLockedUntil := true, 0, None;
      mfaEnabled, hasSecret, backupCodes := false, false, [];
    }

    method Login(t: Attempt) returns (r: Result)
      modifies this
      ensures r == ResultOf(cfg, old(View()), t)
      ensures View() == After(cfg, old(View()), t)
    {
      if accountLockedUntil.Some? && accountLockedUntil.value > t.checkTime {
        return Locked;
      }
      if !active {
        return Disabled;
      }
      if !t.passwordOk {
        failedLoginAttempts := failedLoginAttempts + 1;
        if failedLoginAttempts >= cfg.maxLoginAttempts {
          accountLockedUntil := Some(t.updateTime + cfg.lockoutDuration);
        }
        return WrongPassword;
      }
      if mfaEnabled {
        if t.token == "" {
          return TokenRequired;
        }
        if hasSecret && t.totpOk {
        } else if backupCodes != [] {
          var codeHash := CodeHash(cfg, t.token);
          if codeHash in backupCodes {
            backupCodes := RemoveCode(backupCodes, codeHash);
          } else {
            return WrongToken;
          }
        } else {
          return WrongToken;
        }
      }
      if !t.sessionOk {
        return SessionFailed;
      }
      failedLoginAttempts := 0;
      accountLockedUntil := None;
      return LoggedIn;
    }

    /** Start of a second-factor setup: new hashed codes, not yet enabled. */
    method SetupMfa(codes: seq<string>)
      modifies this
      ensures View() == old(View()).(hasSecret := true, backupCodes := HashCodes(cfg, codes), mfaEnabled := false)
    {
      hasSecret := true;
      backupCodes := HashBackupCodes(cfg, codes);
      mfaEnabled := false;
    }
  }

  method RemoveCode(codes: seq<Hash>, h: Hash) returns (rest: seq<Hash>)
    ensures rest == RemoveFirst(codes, h)
  {
    rest := [];
    for i := 0 to |codes|
      invariant rest == codes[..i]
      invariant RemoveFirst(codes, h) == rest + RemoveFirst(codes[i..], h)
    {
      assert codes[i..][0] == codes[i] && codes[i..][1..] == codes[i + 1..];
      if codes[i] == h {
        return rest + codes[i + 1..];
      }
      Regroup(rest, [codes[i]], RemoveFirst(codes[i + 1..], h));
      rest := rest + [codes[i]];
    }
  }

  lemma CleanStep(done: string, code: string)
    requires code != ""
    ensures done + Clean(code) == (if code[0] == '-' then done else done + [Upper(code[0])]) + Clean(code[1..])
  {
    if code[0] == '-' {
      assert Clean(code) == Clean(code[1..]);
    } else {
      Regroup(done, [Upper(code[0])], Clean(code[1..]));
    }
  }

  method CleanCode(code: string) returns (clean: string)
    ensures clean == Clean(code)
  {
    clean := "";
    for i := 0 to |code|
      invariant Clean(code) == clean + Clean(code[i..])
    {
      CleanStep(clean, code[i..]);
      assert code[i..][0] == code[i] && code[i..][1..] == code[i + 1..];
      if code[i] != '-' {
        clean := clean + [Upper(code[i])];
      }
    }
  }

  method HashBackupCodes(cfg: Config, codes: seq<string>) returns (hashed: seq<Hash>)
    ensures hashed == HashCodes(cfg, codes)
  {
    hashed := [];
    for i := 0 to |codes|
      invariant hashed == HashCodes(cfg, codes)[..i]
    {
      var clean := CleanCode(codes[i]);
      hashed := hashed + [cfg.digest(clean)];
    }
  }
}
