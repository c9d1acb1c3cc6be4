// Credential helpers shared by the server's login path: lowercase hex
// encoding of byte strings, decoding a hex salt back into bytes, the
// constant-time password comparison, and the per-address login rate limiter.
module Common {
  import opened Bytes

  /** The characters `%02x` prints. */
  predicate LowerHex(ch: char)
  {
    '0' <= ch <= '9' || 'a' <= ch <= 'f'
  }

  /** The lowercase digit for a nibble. */
  function HexDigit(n: nat): (r: char)
    requires n < 16
    ensures LowerHex(r)
  {
    if n < 10 then ('0' as int + n) as char else ('a' as int + n - 10) as char
  }

  /** The nibble a hex digit stands for, either case, as `%x` reads it. */
  function HexValue(ch: char): (r: Option<nat>)
    ensures r.Some? ==> r.value < 16
    ensures r.Some? <==> '0' <= ch <= '9' || 'a' <= ch <= 'f' || 'A' <= ch <= 'F'
  {
    if '0' <= ch <= '9' then Some(ch as nat - '0' as nat)
    else if 'a' <= ch <= 'f' then Some(ch as nat - 'a' as nat + 10)
    else if 'A' <= ch <= 'F' then Some(ch as nat - 'A' as nat + 10)
    else None
  }

  lemma HexValueOfDigit(n: nat)
    requires n < 16
    ensures HexValue(HexDigit(n)) == Some(n)
  {
  }

  /** Two zero-padded lowercase hex characters per byte, most significant nibble first. */
  function Hex(d: seq<byte>): (r: string)
  {
    if d == [] then [] else [HexDigit(d[0] as nat / 16), HexDigit(d[0] as nat % 16)] + Hex(d[1..])
  }

  /** BytesToHex, byte by byte. */
  method BytesToHex(d: seq<byte>) returns (s: string)
    ensures s == Hex(d)
  {
    s := [];
    var i := 0;
    while i < |d|
      invariant 0 <= i <= |d|
      invariant s + Hex(d[i..]) == Hex(d)
    {
      assert d[i..][1..] == d[i + 1..];
      s := s + [HexDigit(d[i] as nat / 16), HexDigit(d[i] as nat % 16)];
      i := i + 1;
    }
  }

  /** The output has 2n characters, all lowercase hex, spelling each byte in turn. */
  lemma {:induction false} HexShape(d: seq<byte>)
    ensures |Hex(d)| == 2 * |d|
    ensures forall j :: 0 <= j < |Hex(d)| ==> LowerHex(Hex(d)[j])
    ensures forall i :: 0 <= i < |d| ==>
      Hex(d)[2 * i] == HexDigit(d[i] as nat / 16) && Hex(d)[2 * i + 1] == HexDigit(d[i] as nat % 16)
  {
    if d != [] {
      HexShape(d[1..]);
      var h := Hex(d);
      assert h == [HexDigit(d[0] as nat / 16), HexDigit(d[0] as nat % 16)] + Hex(d[1..]);
      forall i | 1 <= i < |d|
        ensures h[2 * i] == HexDigit(d[i] as nat / 16) && h[2 * i + 1] == HexDigit(d[i] as nat % 16)
      {
        assert d[1..][i - 1] == d[i];
        assert h[2 * i] == Hex(d[1..])[2 * (i - 1)];
        assert h[2 * i + 1] == Hex(d[1..])[2 * (i - 1) + 1];
      }
    }
  }

  /**
   * The salt bytes HashPassword feeds to PBKDF2: |s|/2 hex pairs, a trailing
   * odd character ignored; None when a pair is not two hex digits.
   */
  function Unhex(s: string): (r: Option<seq<byte>>)
    ensures r.Some? ==> |r.value| == |s| / 2
    decreases |s|
  {
    if |s| < 2 then Some([])
    else if HexValue(s[0]).None? || HexValue(s[1]).None? then None
    else Prepend([(HexValue(s[0]).value * 16 + HexValue(s[1]).value) as byte], Unhex(s[2..]))
  }

  function Prepend(out: seq<byte>, rest: Option<seq<byte>>): (r: Option<seq<byte>>)
    ensures r.Some? <==> rest.Some?
    ensures r.Some? ==> |r.value| == |out| + |rest.value|
  {
    match rest
    case Some(r) => Some(out + r)
    case None => None
  }

  lemma PrependNothing(x: Option<seq<byte>>)
    ensures Prepend([], x) == x
  {
    if x.Some? {
      assert [] + x.value == x.value;
    }
  }

  lemma PrependAssoc(out: seq<byte>, b: byte, x: Option<seq<byte>>)
    ensures Prepend(out, Prepend([b], x)) == Prepend(out + [b], x)
  {
    if x.Some? {
      assert out + ([b] + x.value) == (out + [b]) + x.value;
    }
  }

  lemma PrependRest(out: seq<byte>, tail: string)
    requires |tail| < 2
    ensures Prepend(out, Unhex(tail)) == Some(out)
  {
    assert out + [] == out;
  }

  /** Unhex of the text from pair `i` on. */
  lemma UnhexAt(s: string, i: nat)
    requires 2 * i + 2 <= |s|
    ensures Unhex(s[2 * i..]) ==
      if HexValue(s[2 * i]).None? || HexValue(s[2 * i + 1]).None? then None
      else Prepend([(HexValue(s[2 * i]).value * 16 + HexValue(s[2 * i + 1]).value) as byte],
                   Unhex(s[2 * i + 2..]))
  {
    var t := s[2 * i..];
    assert t[0] == s[2 * i] && t[1] == s[2 * i + 1] && t[2..] == s[2 * i + 2..];
  }

  /** The decoding loop of HashPassword, pair by pair. */
  method DecodeSalt(salt: string) returns (sb: Option<seq<byte>>)
    ensures sb == Unhex(salt)
  {
    var out: seq<byte> := [];
    var i := 0;
    assert salt[0..] == salt;
    PrependNothing(Unhex(salt));
    while i < |salt| / 2
      invariant 0 <= i <= |salt| / 2
      invariant Unhex(salt) == Prepend(out, Unhex(salt[2 * i..]))
    {
      UnhexAt(salt, i);
      var hi := HexValue(salt[2 * i]);
      var lo := HexValue(salt[2 * i + 1]);
      if hi.None? || lo.None? {
        return None;
      }
      var b := (hi.value * 16 + lo.value) as byte;
      PrependAssoc(out, b, Unhex(salt[2 * i + 2..]));
      out := out + [b];
      i := i + 1;
    }
    PrependRest(out, salt[2 * i..]);
    sb := Some(out);
  }

  /** Decoding a hex string gives back the bytes: the salt round trip. */
  lemma {:induction false} UnhexHex(d: seq<byte>)
    ensures Unhex(Hex(d)) == Some(d)
  {
    if d != [] {
      var hi, lo := HexDigit(d[0] as nat / 16), HexDigit(d[0] as nat % 16);
      assert Hex(d) == [hi, lo] + Hex(d[1..]);
      PairValue(d[0]);
      UnhexCons(hi, lo, Hex(d[1..]));
      UnhexHex(d[1..]);
      assert [d[0]] + d[1..] == d;
    }
  }

  lemma UnhexCons(x: char, y: char, rest: string)
    requires HexValue(x).Some? && HexValue(y).Some?
    ensures Unhex([x, y] + rest) ==
      Prepend([(HexValue(x).value * 16 + HexValue(y).value) as byte], Unhex(rest))
  {
    var s := [x, y] + rest;
    assert s[0] == x && s[1] == y && s[2..] == rest;
  }

  /** A byte's two digits read back as that byte. */
  lemma PairValue(b: byte)
    ensures HexValue(HexDigit(b as nat / 16)).Some? && HexValue(HexDigit(b as nat % 16)).Some?
    ensures (HexValue(HexDigit(b as nat / 16)).value * 16 + HexValue(HexDigit(b as nat % 16)).value) as byte == b
  {
    HexValueOfDigit(b as nat / 16);
    HexValueOfDigit(b as nat % 16);
  }

  /** Distinct byte strings have distinct hex spellings. */
  lemma HexInjective(a: seq<byte>, b: seq<byte>)
    requires Hex(a) == Hex(b)
    ensures a == b
  {
    UnhexHex(a);
    UnhexHex(b);
  }

  /** The text HashPassword returns: "" when the key derivation fails. */
  function HashText(derived: Option<seq<byte>>): (r: string)
    ensures derived.Some? ==> |r| == 2 * |derived.value|
    ensures derived.None? ==> r == ""
  {
    if derived.None? then "" else HexShape(derived.value); Hex(derived.value)
  }

  /**
   * VerifyPassword. `derived` is the PBKDF2 key for the password and the
   * decoded salt, or None when the derivation fails. The comparison looks at
   * every character pair, without stopping at the first difference.
   */
  method VerifyPassword(salt: string, stored: string, derived: Option<seq<byte>>) returns (ok: bool)
    ensures ok <==> salt != "" && stored != "" && derived.Some? && Hex(derived.value) == stored
  {
    if salt == "" || stored == "" {
      return false;
    }
    var c := HashText(derived);
    if c == "" {
      return false;
    }
    if |c| != |stored| {
      return false;
    }
    // The accumulator `r |= c[i] ^ stored[i]` is kept as whether it is
    // non-zero; the loop still visits every position.
    var differs := false;
    var i := 0;
    while i < |c|
      invariant 0 <= i <= |c|
      invariant !differs <==> forall k :: 0 <= k < i ==> c[k] == stored[k]
    {
      differs := differs || c[i] != stored[i];
      i := i + 1;
    }
    ok := !differs;
    if ok {
      assert c == stored;
    }
  }

  /** The stored hash of the right key is accepted and any other key is refused. */
  lemma VerifyExact(salt: string, key: seq<byte>, other: seq<byte>)
    requires salt != "" && key != []
    ensures Hex(key) != ""
    ensures other != key ==> Hex(other) != Hex(key)
  {
    HexShape(key);
    if Hex(other) == Hex(key) {
      HexInjective(other, key);
    }
  }

  // ---------------------------------------------------------------------
  // Login rate limiting

  /** steady_clock ticks, one per nanosecond. */
  const SECOND: int := 1_000_000_000
  const WINDOW: int := 15 * 60 * SECOND
  const LOCKOUT: int := 30 * 60 * SECOND
  const MAX_ATTEMPTS: int := 5

  /**
   * Failed attempts in the current window, when the window opened, and when
   * the lockout ends (0, the clock's epoch, when there is none).
   */
  datatype Entry = Entry(att: nat, first: int, lockout: int)

  predicate LockedOut(e: Entry, now: int)
  {
    e.lockout > 0 && now < e.lockout
  }

  predicate Expired(e: Entry, now: int)
  {
    now - e.first > WINDOW
  }

  /** IsAllowed's answer, and the table after it (an expired entry is erased). */
  function Allowed(lim: map<string, Entry>, ip: string, now: int): (r: (bool, map<string, Entry>))
    ensures ip !in lim ==> r == (true, lim)
    ensures r.1 == lim || r.1 == lim - {ip}
    ensures r.0 <==>
      (ip !in lim || (!LockedOut(lim[ip], now) && (Expired(lim[ip], now) || lim[ip].att < MAX_ATTEMPTS)))
  {
    if ip !in lim then (true, lim)
    else
      var e := lim[ip];
      if LockedOut(e, now) then (false, lim)
      else if Expired(e, now) then (true, lim - {ip})
      else (e.att < MAX_ATTEMPTS, lim)
  }

  /** The entry after a failed attempt (a missing ip starts as the zero entry). */
  function Failed(e: Entry, now: int): (r: Entry)
    ensures e.att == 0 || Expired(e, now) ==> r == Entry(1, now, 0)
    ensures e.att != 0 && !Expired(e, now) ==>
      r.att == e.att + 1 && r.first == e.first &&
      r.lockout == (if r.att >= MAX_ATTEMPTS then now + LOCKOUT else e.lockout)
  {
    if e.att == 0 || Expired(e, now) then Entry(1, now, 0)
    else
      var att := e.att + 1;
      if att >= MAX_ATTEMPTS then Entry(att, e.first, now + LOCKOUT)
      else e.(att := att)
  }

  function Recorded(lim: map<string, Entry>, ip: string, ok: bool, now: int): (r: map<string, Entry>)
    ensures ok ==> ip !in r
    ensures !ok ==> ip in r
    ensures forall other :: other != ip ==> (other in r <==> other in lim)
    ensures forall other :: other != ip && other in r ==> r[other] == lim[other]
  {
    if ok then lim - {ip}
    else lim[ip := Failed(if ip in lim then lim[ip] else Entry(0, 0, 0), now)]
  }

  function Remaining(lim: map<string, Entry>, ip: string): (r: int)
    ensures 0 <= r <= MAX_ATTEMPTS
    ensures ip !in lim ==> r == MAX_ATTEMPTS
  {
    if ip !in lim then MAX_ATTEMPTS else Max(0, MAX_ATTEMPTS - lim[ip].att)
  }

  function LockoutLeft(lim: map<string, Entry>, ip: string, now: int): (r: int)
    ensures r >= 0
    ensures (ip !in lim || lim[ip].lockout <= now) ==> r == 0
    ensures ip in lim && lim[ip].lockout > now ==> r * SECOND <= lim[ip].lockout - now < (r + 1) * SECOND
  {
    if ip !in lim || lim[ip].lockout <= now then 0 else (lim[ip].lockout - now) / SECOND
  }

  /** The per-address failure table behind the login endpoint. */
  class RateLimiter {
    var lim: map<string, Entry>

    constructor ()
      ensures lim == map[]
    {
      lim := map[];
    }

    method IsAllowed(ip: string, now: int) returns (ok: bool)
      modifies this
      ensures (ok, lim) == Allowed(old(lim), ip, now)
    {
      if ip !in lim {
        return true;
      }
      var e := lim[ip];
      if e.lockout > 0 && now < e.lockout {
        return false;
      }
      if now - e.first > WINDOW {
        lim := lim - {ip};
        return true;
      }
      ok := e.att < MAX_ATTEMPTS;
    }

    method RecordAttempt(ip: string, ok: bool, now: int)
      modifies this
      ensures lim == Recorded(old(lim), ip, ok, now)
    {
      if ok {
        lim := lim - {ip};
        return;
      }
      var r := if ip in lim then lim[ip] else Entry(0, 0, 0);
      if r.att == 0 || now - r.first > WINDOW {
        r := Entry(1, now, 0);
      } else {
        r := r.(att := r.att + 1);
        if r.att >= MAX_ATTEMPTS {
          r := r.(lockout := now + LOCKOUT);
        }
      }
      lim := lim[ip := r];
    }

    method RemainingAttempts(ip: string) returns (n: int)
      ensures n == Remaining(lim, ip)
    {
      n := if ip !in lim then MAX_ATTEMPTS else Max(0, MAX_ATTEMPTS - lim[ip].att);
    }

    method LockoutSeconds(ip: string, now: int) returns (n: int)
      ensures n == LockoutLeft(lim, ip, now)
    {
      if ip !in lim || lim[ip].lockout <= now {
        return 0;
      }
      n := (lim[ip].lockout - now) / SECOND;
    }
  }

  /** Failures at the given times, in order. */
  function Failures(lim: map<string, Entry>, ip: string, times: seq<int>): map<string, Entry>
    decreases |times|
  {
    if times == [] then lim else Failures(Recorded(lim, ip, false, times[0]), ip, times[1..])
  }

  /**
   * Failures from a clean slate, none more than 15 minutes after the first,
   * count up one by one; from the fifth on the address is locked out for
   * 30 minutes after the latest.
   */
  lemma {:induction false} FailuresCount(lim: map<string, Entry>, ip: string, times: seq<int>)
    requires ip !in lim && |times| > 0
    requires forall j :: 0 <= j < |times| ==> times[0] <= times[j] <= times[0] + WINDOW
    ensures var r := Failures(lim, ip, times);
      && ip in r && r[ip].att == |times| && r[ip].first == times[0]
      && r[ip].lockout == (if |times| >= MAX_ATTEMPTS then times[|times| - 1] + LOCKOUT else 0)
  {
    var k := |times|;
    if k > 1 {
      FailuresCount(lim, ip, times[..k - 1]);
      FailuresSnoc(lim, ip, times[..k - 1], times[k - 1]);
      assert times[..k - 1] + [times[k - 1]] == times;
    } else {
      assert times[1..] == [];
    }
  }

  lemma {:induction false} FailuresSnoc(lim: map<string, Entry>, ip: string, times: seq<int>, t: int)
    ensures Failures(lim, ip, times + [t]) == Recorded(Failures(lim, ip, times), ip, false, t)
    decreases |times|
  {
    if times == [] {
      assert ([] + [t])[1..] == [];
    } else {
      assert (times + [t])[1..] == times[1..] + [t];
      FailuresSnoc(Recorded(lim, ip, false, times[0]), ip, times[1..], t);
    }
  }

  /** After the fifth failure the address is refused until the lockout ends. */
  lemma LockedAfterFive(lim: map<string, Entry>, ip: string, times: seq<int>, now: int)
    requires ip !in lim && |times| == MAX_ATTEMPTS
    requires forall j :: 0 <= j < |times| ==> times[0] <= times[j] <= times[0] + WINDOW
    requires times[|times| - 1] >= 0
    requires times[|times| - 1] <= now < times[|times| - 1] + LOCKOUT
    ensures var r := Failures(lim, ip, times);
      && !Allowed(r, ip, now).0
      && Remaining(r, ip) == 0
      && LockoutLeft(r, ip, now) == (times[|times| - 1] + LOCKOUT - now) / SECOND
  {
    FailuresCount(lim, ip, times);
  }

  /** With no lockout in force and a live window, IsAllowed agrees with RemainingAttempts. */
  lemma AllowedIffRemaining(lim: map<string, Entry>, ip: string, now: int)
    requires ip in lim && !LockedOut(lim[ip], now) && !Expired(lim[ip], now)
    ensures Allowed(lim, ip, now).0 <==> Remaining(lim, ip) > 0
  {
  }

  /** A successful login clears the address: allowed, with every attempt back. */
  lemma SuccessResets(lim: map<string, Entry>, ip: string, now: int, later: int)
    ensures var r := Recorded(lim, ip, true, now);
      Allowed(r, ip, later) == (true, r) && Remaining(r, ip) == MAX_ATTEMPTS &&
      LockoutLeft(r, ip, later) == 0
  {
  }
}
