/**
 * The admin session guard (components/admin/AdminAuthWrapper.tsx): restoring a session from
 * session storage with a five-minute age limit, the inactivity and hidden-tab logouts, the
 * login through the admin API and the logout. Session storage is a map field; the clock, the
 * timers' firing, the tab's visibility and the API's reply are parameters.
 */
module AdminSession {
  import opened Wrappers
  import opened Text
  import AdminAuthApi

  const AuthKey := "nujumarts_admin_auth"
  const TimeKey := "nujumarts_admin_login_time"
  /** The age limit of a stored session, in milliseconds. */
  const SessionLimit := 5 * 60 * 1000
  /** The inactivity limit, in milliseconds. */
  const InactivityLimit := 10 * 60 * 1000
  const RejectedFallback := "Invalid email or password. Please try again."
  const LoginThrew := "Authentication failed. Please try again."

  /** The radix `parseInt` reads in when none is given: hexadecimal after "0x" or "0X", decimal otherwise. */
  datatype Radix = Decimal | Hex

  function Base(radix: Radix): nat {
    if radix == Hex then 16 else 10
  }

  predicate IsDigit(c: char) { '0' <= c <= '9' }

  /** A digit of the radix: 0-9, and for hexadecimal also a-f and A-F. */
  predicate IsDigitIn(c: char, radix: Radix) {
    IsDigit(c) || (radix == Hex && ('a' <= c <= 'f' || 'A' <= c <= 'F'))
  }

  function DigitValue(c: char, radix: Radix): (k: nat)
    requires IsDigitIn(c, radix)
    ensures k < Base(radix)
    ensures IsDigit(c) ==> k < 10
  {
    if IsDigit(c) then c as int - '0' as int
    else if 'a' <= c <= 'f' then c as int - 'a' as int + 10
    else c as int - 'A' as int + 10
  }

  function DigitChar(k: nat): (c: char)
    requires k < 10
    ensures IsDigit(c) && DigitValue(c, Decimal) == k
  {
    ('0' as int + k) as char
  }

  /** The longest prefix of digits of the radix. */
  function DigitPrefix(s: string, radix: Radix): (r: string)
    ensures |r| <= |s| && r == s[..|r|]
    ensures forall i :: 0 <= i < |r| ==> IsDigitIn(r[i], radix)
    ensures |r| == |s| || !IsDigitIn(s[|r|], radix)
  {
    if s == [] || !IsDigitIn(s[0], radix) then [] else [s[0]] + DigitPrefix(s[1..], radix)
  }

  /** The number a string of digits denotes in the radix. */
  function DigitsValue(d: string, radix: Radix): nat
    requires forall i :: 0 <= i < |d| ==> IsDigitIn(d[i], radix)
  {
    if d == [] then 0 else DigitsValue(d[..|d| - 1], radix) * Base(radix) + DigitValue(d[|d| - 1], radix)
  }

  /** The text `parseInt` reads digits from: leading whitespace and one sign skipped. */
  function Unsigned(s: string): (u: string)
    ensures |u| <= |s|
  {
    var t := TrimStart(s);
    if |t| > 0 && (t[0] == '-' || t[0] == '+') then t[1..] else t
  }

  /** The "0x" or "0X" prefix that switches `parseInt` to hexadecimal. */
  predicate HexPrefixed(u: string) {
    |u| >= 2 && u[0] == '0' && (u[1] == 'x' || u[1] == 'X')
  }

  /**
   * JavaScript's `parseInt(s)` without a radix: leading whitespace and one sign are skipped,
   * a "0x"/"0X" prefix selects hexadecimal, then the longest run of digits of the radix is
   * read; None stands for NaN, when there are no such digits.
   */
  function ParseInt(s: string): (r: Option<int>)
    ensures !HexPrefixed(Unsigned(s)) ==> (r.None? <==> DigitPrefix(Unsigned(s), Decimal) == [])
    ensures HexPrefixed(Unsigned(s)) ==> (r.None? <==> DigitPrefix(Unsigned(s)[2..], Hex) == [])
  {
    var t := TrimStart(s);
    var u := Unsigned(s);
    var radix := if HexPrefixed(u) then Hex else Decimal;
    var d := DigitPrefix(if radix == Hex then u[2..] else u, radix);
    if d == [] then None
    else if |t| > 0 && t[0] == '-' then Some(-(DigitsValue(d, radix) as int))
    else Some(DigitsValue(d, radix))
  }

  /** "1A" is two hexadecimal digits worth 26. */
  lemma HexDigitsValue()
    ensures DigitPrefix("1A", Hex) == "1A" && DigitsValue("1A", Hex) == 26
  {
    assert DigitsValue("1", Hex) == 1 by { assert "1"[..0] == ""; }
    assert "1A"[..1] == "1";
  }

  /** Text that opens with "0x" or "0X" is read as the hexadecimal digits after the prefix. */
  lemma ParseHexPrefixed(u: string)
    requires HexPrefixed(u)
    ensures var d := DigitPrefix(u[2..], Hex);
      ParseInt(u) == if d == [] then None else Some(DigitsValue(d, Hex) as int)
  {
    assert TrimStart(u) == u;
    assert Unsigned(u) == u;
  }

  /** A "0x" prefix is read in base 16: "0x1A" is 26. */
  lemma HexPrefixReadInBase16()
    ensures ParseInt("0x1A") == Some(26)
  {
    var s := "0x1A";
    assert HexPrefixed(s) && s[2..] == "1A";
    ParseHexPrefixed(s);
    HexDigitsValue();
  }

  /** With no hexadecimal digit after "0x" the result is NaN. */
  lemma EmptyHexIsNaN()
    ensures ParseInt("0x").None?
  {
    assert HexPrefixed("0x") && "0x"[2..] == "";
    ParseHexPrefixed("0x");
  }

  /** "0" alone reads as 0. */
  lemma ZeroReadsZero()
    ensures ParseInt("0") == Some(0)
  {
    assert TrimStart("0") == "0";
    assert Unsigned("0") == "0" && !HexPrefixed("0");
    assert DigitPrefix("0", Decimal) == "0";
    assert DigitsValue("0", Decimal) == 0 by { assert "0"[..0] == ""; }
  }

  /** `n.toString()` for a non-negative integer such as `Date.now()`. */
  function IntToString(n: nat): (s: string)
    ensures |s| > 0 && forall i :: 0 <= i < |s| ==> IsDigit(s[i])
  {
    if n < 10 then [DigitChar(n)] else IntToString(n / 10) + [DigitChar(n % 10)]
  }

  lemma {:induction false} DigitsValueOfString(n: nat)
    ensures DigitsValue(IntToString(n), Decimal) == n
  {
    if n >= 10 {
      var p := IntToString(n / 10);
      var s := IntToString(n);
      assert s[..|s| - 1] == p;
      DigitsValueOfString(n / 10);
    }
  }

  /** A non-empty string of decimal digits is its own unsigned text, with no hex prefix. */
  lemma UnsignedOfDigits(s: string)
    requires |s| > 0 && forall i :: 0 <= i < |s| ==> IsDigit(s[i])
    ensures TrimStart(s) == s && Unsigned(s) == s && !HexPrefixed(s)
  {
    assert !IsSpace(s[0]) && s[0] != '-' && s[0] != '+';
    if |s| >= 2 { assert IsDigit(s[1]); }
  }

  /** parseInt of a non-empty string of decimal digits is the number the digits denote. */
  lemma ParseDigits(s: string)
    requires |s| > 0 && forall i :: 0 <= i < |s| ==> IsDigit(s[i])
    ensures forall i :: 0 <= i < |s| ==> IsDigitIn(s[i], Decimal)
    ensures ParseInt(s) == Some(DigitsValue(s, Decimal))
  {
    UnsignedOfDigits(s);
    assert DigitPrefix(s, Decimal) == s;
  }

  /** Reading back a written time gives the time. */
  lemma ParseIntRoundTrip(n: nat)
    ensures ParseInt(IntToString(n)) == Some(n)
  {
    ParseDigits(IntToString(n));
    DigitsValueOfString(n);
  }

  /** A stored session is too old: its time parses and lies more than five minutes back. */
  predicate Expired(now: int, loginTime: string) {
    var t := ParseInt(loginTime);
    t.Some? && now - t.value > SessionLimit
  }

  /** A session stored exactly five minutes ago is still valid; one millisecond more and it is not. */
  lemma ExpiryBoundary(now: nat)
    requires now > SessionLimit
    ensures !Expired(now, IntToString(now - SessionLimit))
    ensures Expired(now, IntToString(now - SessionLimit - 1))
  {
    ParseIntRoundTrip(now - SessionLimit);
    ParseIntRoundTrip(now - SessionLimit - 1);
  }

  /** A stored time that `parseInt` reads as NaN never expires. */
  lemma UnreadableTimeNeverExpires(now: int, loginTime: string)
    requires ParseInt(loginTime).None?
    ensures !Expired(now, loginTime)
  {
  }

  /** For example "soon" is read as NaN. */
  lemma SoonIsNaN()
    ensures ParseInt("soon").None?
  {
    assert TrimStart("soon") == "soon";
  }

  /** The stored flag is 'true' and the stored time is a non-empty string. */
  predicate StoredSession(storage: map<string, string>) {
    AuthKey in storage && storage[AuthKey] == "true" && TimeKey in storage && storage[TimeKey] != ""
  }

  /** How the login request went. */
  datatype LoginOutcome = Succeeded | Rejected(error: Option<string>) | Threw

  /** The reply of the admin API, as the login handler reads it. */
  function OutcomeOf(r: AdminAuthApi.AuthResponse): (o: LoginOutcome)
    ensures r.Authenticated? <==> o == Succeeded
    ensures r.Failure? ==> o == Rejected(Some(r.error))
  {
    if r.Authenticated? then Succeeded else Rejected(Some(r.error))
  }

  /** What the guard renders. */
  datatype Screen = Spinner | LoginForm(error: string) | AdminContent

  class AdminAuthWrapper {
    var storage: map<string, string>
    var isAuthenticated: bool
    var isLoading: bool
    var error: string
    /**
     * When the inactivity timer will fire, if it is running. The guard's effect re-runs
     * whenever the signed-in flag changes: its cleanup clears the timer, and a run that sees
     * the admin signed in starts a fresh ten-minute one.
     */
    var inactivityDeadline: Option<int>

    /** The state on mount, before `checkAuth` runs. */
    constructor (storage0: map<string, string>)
      ensures storage == storage0 && !isAuthenticated && isLoading && error == "" && inactivityDeadline == None
    {
      storage := storage0;
      isAuthenticated := false;
      isLoading := true;
      error := "";
      inactivityDeadline := None;
    }

    /**
     * `handleLogout`: both keys removed, signed out, error cleared. Signing out a signed-in
     * admin re-runs the effect, whose cleanup stops the inactivity timer; when already signed
     * out the flag does not change and a running timer keeps running.
     */
    method HandleLogout()
      modifies this
      ensures storage == old(storage) - {AuthKey, TimeKey}
      ensures !isAuthenticated && error == ""
      ensures inactivityDeadline == if old(isAuthenticated) then None else old(inactivityDeadline)
      ensures isLoading == old(isLoading)
    {
      storage := storage - {AuthKey, TimeKey};
      if isAuthenticated {
        inactivityDeadline := None;
      }
      isAuthenticated := false;
      error := "";
    }

    /**
     * `setIsAuthenticated(true)` at `now`: when the flag changes, the effect re-runs and starts
     * a ten-minute inactivity timer (its `checkAuth` finds the session just written and only
     * rewrites the same time).
     */
    method SignIn(now: nat)
      modifies this
      ensures isAuthenticated
      ensures inactivityDeadline == if old(isAuthenticated) then old(inactivityDeadline) else Some(now + InactivityLimit)
      ensures storage == old(storage) && error == old(error) && isLoading == old(isLoading)
    {
      if !isAuthenticated {
        inactivityDeadline := Some(now + InactivityLimit);
      }
      isAuthenticated := true;
    }

    /**
     * `checkAuth` at time `now`: a stored session that is not expired signs in and rewrites
     * the time to now; an expired one is logged out; without a stored session nothing but
     * the loading flag changes.
     */
    method CheckAuth(now: nat)
      modifies this
      ensures !isLoading
      ensures !StoredSession(old(storage)) ==>
        && storage == old(storage) && isAuthenticated == old(isAuthenticated) && error == old(error)
        && inactivityDeadline == old(inactivityDeadline)
      ensures StoredSession(old(storage)) && Expired(now, old(storage)[TimeKey]) ==>
        && storage == old(storage) - {AuthKey, TimeKey} && !isAuthenticated && error == ""
        && inactivityDeadline == if old(isAuthenticated) then None else old(inactivityDeadline)
      ensures StoredSession(old(storage)) && !Expired(now, old(storage)[TimeKey]) ==>
        && storage == old(storage)[TimeKey := IntToString(now)] && isAuthenticated && error == old(error)
        && inactivityDeadline == if old(isAuthenticated) then old(inactivityDeadline) else Some(now + InactivityLimit)
    {
      if StoredSession(storage) {
        if Expired(now, storage[TimeKey]) {
          HandleLogout();
        } else {
          SignIn(now);
          storage := storage[TimeKey := IntToString(now)];
        }
      }
      isLoading := false;
    }

    /** `resetInactivityTimer` on activity at `now`: the deadline moves to ten minutes on, and the time is rewritten while the flag is 'true'. */
    method ResetInactivityTimer(now: nat)
      modifies this
      ensures inactivityDeadline == Some(now + InactivityLimit)
      ensures storage == (if AuthKey in old(storage) && old(storage)[AuthKey] == "true"
                          then old(storage)[TimeKey := IntToString(now)] else old(storage))
      ensures isAuthenticated == old(isAuthenticated) && error == old(error) && isLoading == old(isLoading)
    {
      inactivityDeadline := Some(now + InactivityLimit);
      if AuthKey in storage && storage[AuthKey] == "true" {
        storage := storage[TimeKey := IntToString(now)];
      }
    }

    /**
     * Time `now` is reached: a running timer whose deadline has come logs out and is spent;
     * otherwise nothing happens.
     */
    method InactivityTimerFires(now: int)
      modifies this
      ensures old(inactivityDeadline).Some? && now >= old(inactivityDeadline).value ==>
        storage == old(storage) - {AuthKey, TimeKey} && !isAuthenticated && error == "" && inactivityDeadline == None
      ensures !(old(inactivityDeadline).Some? && now >= old(inactivityDeadline).value) ==>
        && storage == old(storage) && isAuthenticated == old(isAuthenticated) && error == old(error)
        && inactivityDeadline == old(inactivityDeadline)
      ensures isLoading == old(isLoading)
    {
      if inactivityDeadline.Some? && now >= inactivityDeadline.value {
        HandleLogout();
        inactivityDeadline := None;
      }
    }

    /** The check one minute after the tab was hidden: logs out iff the tab is still hidden. */
    method HiddenCheck(stillHidden: bool)
      modifies this
      ensures stillHidden ==>
        && storage == old(storage) - {AuthKey, TimeKey} && !isAuthenticated && error == ""
        && inactivityDeadline == if old(isAuthenticated) then None else old(inactivityDeadline)
      ensures !stillHidden ==>
        && storage == old(storage) && isAuthenticated == old(isAuthenticated) && error == old(error)
        && inactivityDeadline == old(inactivityDeadline)
      ensures isLoading == old(isLoading)
    {
      if stillHidden {
        HandleLogout();
      }
    }

    /** `beforeunload`: both keys removed; the page's own state is left alone. */
    method BeforeUnload()
      modifies this
      ensures storage == old(storage) - {AuthKey, TimeKey}
      ensures isAuthenticated == old(isAuthenticated) && error == old(error) && isLoading == old(isLoading)
      ensures inactivityDeadline == old(inactivityDeadline)
    {
      storage := storage - {AuthKey, TimeKey};
    }

    /**
     * `handleLogin` with the request's outcome, finishing at `now`: success stores the flag and
     * the time and signs in; a rejection shows the server's error or the fallback; an
     * exception shows the fixed message. Loading ends in every case.
     */
    method HandleLogin(outcome: LoginOutcome, now: nat)
      modifies this
      ensures !isLoading
      ensures outcome == Succeeded ==>
        && storage == old(storage)[AuthKey := "true"][TimeKey := IntToString(now)] && isAuthenticated && error == ""
        && inactivityDeadline == if old(isAuthenticated) then old(inactivityDeadline) else Some(now + InactivityLimit)
      ensures outcome.Rejected? ==>
        && storage == old(storage) && isAuthenticated == old(isAuthenticated)
        && error == (if outcome.error.Some? && outcome.error.value != "" then outcome.error.value else RejectedFallback)
      ensures outcome == Threw ==> storage == old(storage) && isAuthenticated == old(isAuthenticated) && error == LoginThrew
      ensures outcome != Succeeded ==> inactivityDeadline == old(inactivityDeadline)
    {
      isLoading := true;
      error := "";
      match outcome {
        case Succeeded =>
          storage := storage[AuthKey := "true"][TimeKey := IntToString(now)];
          SignIn(now);
          error := "";
        case Rejected(e) =>
          error := if e.Some? && e.value != "" then e.value else RejectedFallback;
        case Threw =>
          error := LoginThrew;
      }
      isLoading := false;
    }

    /** The spinner while loading, the login form while signed out, the admin pages otherwise. */
    function Render(): (s: Screen)
      reads this
      ensures isLoading ==> s == Spinner
      ensures !isLoading && !isAuthenticated ==> s == LoginForm(error)
      ensures !isLoading && isAuthenticated ==> s == AdminContent
    {
      if isLoading then Spinner else if !isAuthenticated then LoginForm(error) else AdminContent
    }
  }

  /** After a successful login at `now` and no activity, the inactivity timer logs the admin out ten minutes later. */
  method IdleAfterLogin(w: AdminAuthWrapper, now: nat)
    requires !w.isAuthenticated
    modifies w
    ensures !w.isAuthenticated && !StoredSession(w.storage) && w.inactivityDeadline == None
  {
    w.HandleLogin(Succeeded, now);
    w.InactivityTimerFires(now + InactivityLimit);
  }

  /** A session restored on mount at `now`, with no activity afterwards, is logged out ten minutes later. */
  method IdleAfterRestore(w: AdminAuthWrapper, now: nat)
    requires !w.isAuthenticated && StoredSession(w.storage) && !Expired(now, w.storage[TimeKey])
    modifies w
    ensures !w.isAuthenticated && !StoredSession(w.storage) && w.inactivityDeadline == None
  {
    w.CheckAuth(now);
    w.InactivityTimerFires(now + InactivityLimit);
  }

  /** A login just made is restored by `checkAuth` at any time up to five minutes later. */
  lemma FreshLoginRestores(storage: map<string, string>, loginAt: nat, now: int)
    requires loginAt <= now <= loginAt + SessionLimit
    ensures var s := storage[AuthKey := "true"][TimeKey := IntToString(loginAt)];
      StoredSession(s) && !Expired(now, s[TimeKey])
  {
    var digits := IntToString(loginAt);
    var s := storage[AuthKey := "true"][TimeKey := digits];
    assert s[TimeKey] == digits && s[AuthKey] == "true";
    ParseIntRoundTrip(loginAt);
    assert ParseInt(digits) == Some(loginAt);
  }

  /** After a logout no session is stored, so a second logout changes nothing more. */
  lemma LogoutIdempotent(storage: map<string, string>)
    ensures !StoredSession(storage - {AuthKey, TimeKey})
    ensures (storage - {AuthKey, TimeKey}) - {AuthKey, TimeKey} == storage - {AuthKey, TimeKey}
  {
  }

  /** Wrong credentials sent to the configured admin API show its 'Invalid credentials' message. */
  lemma WrongCredentialsShowServerError(cfg: AdminAuthApi.AdminConfig, c: AdminAuthApi.Credentials)
    requires AdminAuthApi.Configured(cfg) && !AdminAuthApi.Matches(cfg, c)
    ensures OutcomeOf(AdminAuthApi.Post(cfg, Some(c))) == Rejected(Some(AdminAuthApi.InvalidCredentials))
  {
  }
}
