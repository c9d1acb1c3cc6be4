/**
 * The server's input checks of src/app_support.cpp: the setup validators,
 * the console password reader, the session cookie, `Trim`, the private
 * address rule behind `GetClientIP`, the CORS host rule and the ordering
 * `RefreshMonitorList` gives the monitors. Characters are classified as
 * the C library does in the "C" locale.
 */
module AppSupport {
  import opened Bytes
  import D = Decimal
  import NC = NetworkControl

  // ---------------------------------------------------------------------
  // Character classes (<cctype>, "C" locale)
  // ---------------------------------------------------------------------

  predicate IsAlpha(c: char)
  {
    ('a' <= c <= 'z') || ('A' <= c <= 'Z')
  }

  predicate IsDigit(c: char)
  {
    '0' <= c <= '9'
  }

  predicate IsAlnum(c: char)
  {
    IsAlpha(c) || IsDigit(c)
  }

  /** `isspace`: space, tab, newline, vertical tab, form feed, carriage return. */
  predicate IsSpace(c: char)
  {
    c == ' ' || 9 <= c as int <= 13
  }

  // ---------------------------------------------------------------------
  // Setup validators
  // ---------------------------------------------------------------------

  predicate UsernameChar(c: char)
  {
    IsAlnum(c) || c == '_' || c == '-'
  }

  /**
   * `ValidateUsername`: the length is checked first, then every character
   * in turn; the answer agrees with the browser's `validateUsername`.
   */
  method ValidateUsername(u: string) returns (ok: bool)
    ensures ok <==> 3 <= |u| <= 32 && forall i :: 0 <= i < |u| ==> UsernameChar(u[i])
    ensures ok <==> NC.ValidUsername(u)
  {
    if |u| < 3 || |u| > 32 {
      return false;
    }
    var i := 0;
    while i < |u|
      invariant 0 <= i <= |u|
      invariant forall j :: 0 <= j < i ==> UsernameChar(u[j])
    {
      if !UsernameChar(u[i]) {
        assert !NC.UsernameChar(u[i]);
        return false;
      }
      i := i + 1;
    }
    assert forall j :: 0 <= j < |u| ==> NC.UsernameChar(u[j]);
    return true;
  }

  /** What `ValidatePassword` accepts: 8 to 128 characters with a letter and a digit. */
  predicate PasswordRule(p: string)
  {
    8 <= |p| <= 128 && (exists i :: 0 <= i < |p| && IsAlpha(p[i])) && (exists i :: 0 <= i < |p| && IsDigit(p[i]))
  }

  /** `ValidatePassword`: the length gate, then one pass noting a letter and a digit. */
  method ValidatePassword(p: string) returns (ok: bool)
    ensures ok <==> PasswordRule(p)
  {
    if |p| < 8 || |p| > 128 {
      return false;
    }
    var hasLetter, hasDigit := false, false;
    var i := 0;
    while i < |p|
      invariant 0 <= i <= |p|
      invariant hasLetter <==> exists j :: 0 <= j < i && IsAlpha(p[j])
      invariant hasDigit <==> exists j :: 0 <= j < i && IsDigit(p[j])
    {
      if IsAlpha(p[i]) {
        hasLetter := true;
      }
      if IsDigit(p[i]) {
        hasDigit := true;
      }
      i := i + 1;
    }
    return hasLetter && hasDigit;
  }

  /**
   * The browser's `validatePassword` only asks for 8 characters: every
   * password the server accepts passes it, but not the other way round.
   */
  lemma ServerPasswordStricter(p: string)
    ensures PasswordRule(p) ==> |p| >= 8
    ensures |"abcdefgh"| >= 8 && !PasswordRule("abcdefgh")
  {
    var q := "abcdefgh";
    assert forall i :: 0 <= i < |q| ==> !IsDigit(q[i]);
  }

  // ---------------------------------------------------------------------
  // GetPasswordInput
  // ---------------------------------------------------------------------

  const BACKSPACE: int := 8
  const DEL: int := 127
  const ESC: int := 27

  predicate IsTerminator(ch: int)
  {
    ch == 13 || ch == 10
  }

  predicate Printable(ch: int)
  {
    32 <= ch <= 126
  }

  /** The effect of one key on the password typed so far. */
  function Edit(pw: string, ch: int): string
  {
    if ch == BACKSPACE || ch == DEL then (if pw == [] then pw else pw[..|pw| - 1])
    else if ch == ESC then []
    else if Printable(ch) then pw + [ch as char]
    else pw
  }

  /** The password after typing `keys`, starting from `pw`. */
  function Typed(pw: string, keys: seq<int>): string
    decreases |keys|
  {
    if keys == [] then pw else Typed(Edit(pw, keys[0]), keys[1..])
  }

  lemma {:induction false} TypedAppend(pw: string, a: seq<int>, b: seq<int>)
    ensures Typed(pw, a + b) == Typed(Typed(pw, a), b)
    decreases |a|
  {
    if a == [] {
      assert a + b == b;
    } else {
      assert (a + b)[1..] == a[1..] + b;
      TypedAppend(Edit(pw, a[0]), a[1..], b);
    }
  }

  lemma TypedStep(keys: seq<int>, n: nat)
    requires n < |keys|
    ensures Typed([], keys[..n + 1]) == Edit(Typed([], keys[..n]), keys[n])
  {
    assert keys[..n + 1] == keys[..n] + [keys[n]];
    TypedAppend([], keys[..n], [keys[n]]);
    assert Typed(Typed([], keys[..n]), [keys[n]]) == Typed(Edit(Typed([], keys[..n]), keys[n]), []);
  }

  /**
   * `GetPasswordInput` over the keys `_getch` returns: keys are read up
   * to the first CR or LF (or the end of `keys`), and `used` is the number
   * of keys before it.
   */
  method GetPasswordInput(keys: seq<int>) returns (pw: string, used: nat)
    ensures used <= |keys| && pw == Typed([], keys[..used])
    ensures forall i :: 0 <= i < used ==> !IsTerminator(keys[i])
    ensures used < |keys| ==> IsTerminator(keys[used])
  {
    pw, used := [], 0;
    while used < |keys| && !IsTerminator(keys[used])
      invariant used <= |keys| && pw == Typed([], keys[..used])
      invariant forall i :: 0 <= i < used ==> !IsTerminator(keys[i])
    {
      var ch := keys[used];
      ghost var before := pw;
      if ch == BACKSPACE || ch == DEL {
        if pw != [] {
          pw := pw[..|pw| - 1];
        }
      } else if ch == ESC {
        while pw != []
          decreases |pw|
        {
          pw := pw[..|pw| - 1];
        }
      } else if Printable(ch) {
        pw := pw + [ch as char];
      }
      assert pw == Edit(before, ch);
      TypedStep(keys, used);
      assert keys[..used + 1] == keys[..used] + [ch];
      used := used + 1;
    }
  }

  predicate AllPrintable(s: string)
  {
    forall i :: 0 <= i < |s| ==> Printable(s[i] as int)
  }

  /** Only printable characters ever reach the password. */
  lemma {:induction false} TypedPrintable(pw: string, keys: seq<int>)
    requires AllPrintable(pw)
    ensures AllPrintable(Typed(pw, keys))
    decreases |keys|
  {
    if keys != [] {
      var next := Edit(pw, keys[0]);
      assert AllPrintable(next) by {
        if Printable(keys[0]) && keys[0] != BACKSPACE && keys[0] != DEL && keys[0] != ESC {
          assert next == pw + [keys[0] as char];
        }
      }
      TypedPrintable(next, keys[1..]);
    }
  }

  /** ESC forgets everything typed before it. */
  lemma EscClears(before: seq<int>, after: seq<int>)
    ensures Typed([], before + [ESC] + after) == Typed([], after)
  {
    TypedAppend([], before + [ESC], after);
    TypedAppend([], before, [ESC]);
  }

  /** Backspace or DEL right after a printable key undoes it. */
  lemma BackspaceUndoes(pw: string, ch: int, erase: int, after: seq<int>)
    requires Printable(ch) && (erase == BACKSPACE || erase == DEL)
    ensures Typed(pw, [ch, erase] + after) == Typed(pw, after)
  {
    assert ([ch, erase] + after)[1..] == [erase] + after;
    assert ([erase] + after)[1..] == after;
    assert (pw + [ch as char])[..|pw|] == pw;
  }

  // ---------------------------------------------------------------------
  // std::string::find
  // ---------------------------------------------------------------------

  predicate MatchAt(s: string, pat: string, j: nat)
  {
    j + |pat| <= |s| && s[j..j + |pat|] == pat
  }

  /** `s.find(pat, from)`: the first position at or after `from` where `pat` occurs. */
  function Find(s: string, pat: string, from: nat): (r: Option<nat>)
    ensures r.Some? ==> from <= r.value && MatchAt(s, pat, r.value)
    ensures forall j :: from <= j && (r.None? || j < r.value) ==> !MatchAt(s, pat, j)
    decreases |s| - from
  {
    if from + |pat| > |s| then None
    else if s[from..from + |pat|] == pat then Some(from)
    else Find(s, pat, from + 1)
  }

  /** The first occurrence is where the first match is. */
  lemma FindFirst(s: string, pat: string, from: nat, k: nat)
    requires from <= k && MatchAt(s, pat, k)
    requires forall j :: from <= j < k ==> !MatchAt(s, pat, j)
    ensures Find(s, pat, from) == Some(k)
  {
  }

  lemma NoCharMatch(s: string, c: char, from: nat)
    requires forall i :: from <= i < |s| ==> s[i] != c
    ensures Find(s, [c], from) == None
  {
    forall j | from <= j
      ensures !MatchAt(s, [c], j)
    {
      if j + 1 <= |s| {
        assert s[j..j + 1][0] == s[j];
      }
    }
  }

  /** No match of a one-character pattern means no such character. */
  lemma NoCharBefore(s: string, c: char, from: nat, to: nat)
    requires from <= to <= |s|
    requires forall j :: from <= j < to ==> !MatchAt(s, [c], j)
    ensures forall i :: from <= i < to ==> s[i] != c
  {
    forall i | from <= i < to
      ensures s[i] != c
    {
      assert !MatchAt(s, [c], i);
      assert s[i..i + 1] == [s[i]];
    }
  }

  // ---------------------------------------------------------------------
  // ExtractSessionCookie
  // ---------------------------------------------------------------------

  const SESSION: string := "session="

  /** The text of h from `start` up to the next ';' or the end. */
  function UpToSemicolon(h: string, start: nat): (r: string)
    requires start <= |h|
    ensures start + |r| <= |h| && h[start..start + |r|] == r
    ensures start + |r| == |h| || h[start + |r|] == ';'
    ensures forall i :: 0 <= i < |r| ==> r[i] != ';'
  {
    match Find(h, ";", start)
    case Some(e) =>
      NoCharBefore(h, ';', start, e);
      assert h[e..e + 1] == ";";
      h[start..e]
    case None =>
      NoCharBefore(h, ';', start, |h|);
      h[start..]
  }

  /**
   * `ExtractSessionCookie` on the Cookie header, none when the request has
   * none: the text after the first "session=" up to the next ';' or the
   * end, "" when there is no "session=".
   */
  function ExtractSessionCookie(cookie: Option<string>): (r: string)
    ensures cookie.None? || Find(cookie.value, SESSION, 0).None? ==> r == ""
    ensures cookie.Some? && Find(cookie.value, SESSION, 0).Some? ==>
      r == UpToSemicolon(cookie.value, Find(cookie.value, SESSION, 0).value + |SESSION|)
    ensures forall i :: 0 <= i < |r| ==> r[i] != ';'
  {
    match cookie
    case None => ""
    case Some(h) =>
      match Find(h, SESSION, 0)
      case None => ""
      case Some(p) => UpToSemicolon(h, p + |SESSION|)
  }

  /**
   * A cookie header whose first "session=" introduces token `tok` hands
   * `tok` back, whatever cookie pairs follow it.
   */
  lemma CookieRoundTrip(pre: string, tok: string, rest: string)
    requires forall i :: 0 <= i < |tok| ==> tok[i] != ';'
    requires rest == [] || rest[0] == ';'
    requires forall j :: 0 <= j < |pre| ==> !MatchAt(pre + SESSION + tok + rest, SESSION, j)
    ensures ExtractSessionCookie(Some(pre + SESSION + tok + rest)) == tok
  {
    var h := pre + SESSION + tok + rest;
    var start := |pre| + |SESSION|;
    assert h[|pre|..start] == SESSION;
    FindFirst(h, SESSION, 0, |pre|);
    assert h[start..start + |tok|] == tok;
    assert forall i :: start <= i < start + |tok| ==> h[i] == tok[i - start];
    if rest == [] {
      NoCharMatch(h, ';', start);
    } else {
      assert h[start + |tok|..start + |tok| + 1] == ";";
      forall j | start <= j < start + |tok|
        ensures !MatchAt(h, ";", j)
      {
        assert h[j..j + 1][0] == h[j];
      }
      FindFirst(h, ";", start, start + |tok|);
    }
  }

  // ---------------------------------------------------------------------
  // Trim
  // ---------------------------------------------------------------------

  /** Where `Trim`'s first loop stops: the first non-space at or after k. */
  function StartIdx(s: string, k: nat): (r: nat)
    requires k <= |s|
    ensures k <= r <= |s| && (r == |s| || !IsSpace(s[r]))
    ensures forall i :: k <= i < r ==> IsSpace(s[i])
    decreases |s| - k
  {
    if k < |s| && IsSpace(s[k]) then StartIdx(s, k + 1) else k
  }

  /** Where `Trim`'s second loop stops: one past the last non-space of s[a..b]. */
  function EndIdx(s: string, a: nat, b: nat): (r: nat)
    requires a <= b <= |s|
    ensures a <= r <= b && (r == a || !IsSpace(s[r - 1]))
    ensures forall i :: r <= i < b ==> IsSpace(s[i])
    decreases b
  {
    if b > a && IsSpace(s[b - 1]) then EndIdx(s, a, b - 1) else b
  }

  /** `Trim(s)`: the text between the leading and the trailing whitespace. */
  function Trimmed(s: string): string
  {
    var a := StartIdx(s, 0);
    s[a..EndIdx(s, a, |s|)]
  }

  /**
   * What `Trim` promises: a slice of the input with only whitespace
   * around it and none at either of its ends; trimming twice changes
   * nothing.
   */
  lemma TrimFacts(s: string)
    ensures var r, a := Trimmed(s), StartIdx(s, 0);
      && a + |r| <= |s| && r == s[a..a + |r|]
      && (forall i :: 0 <= i < a ==> IsSpace(s[i]))
      && (forall i :: a + |r| <= i < |s| ==> IsSpace(s[i]))
      && (r == [] || (!IsSpace(r[0]) && !IsSpace(r[|r| - 1])))
      && Trimmed(r) == r
  {
    var a := StartIdx(s, 0);
    var b := EndIdx(s, a, |s|);
    var r := s[a..b];
    if r != [] {
      assert r[0] == s[a] && r[|r| - 1] == s[b - 1];
      assert StartIdx(r, 0) == 0;
      assert EndIdx(r, 0, |r|) == |r|;
      assert r[0..|r|] == r;
    }
  }

  /** `Trim`: two index loops, from the front and from the back. */
  method Trim(s: string) returns (r: string)
    ensures r == Trimmed(s)
  {
    var start, end := 0, |s|;
    while start < end && IsSpace(s[start])
      invariant 0 <= start <= end == |s|
      invariant StartIdx(s, start) == StartIdx(s, 0)
    {
      start := start + 1;
    }
    while end > start && IsSpace(s[end - 1])
      invariant start <= end <= |s|
      invariant EndIdx(s, start, end) == EndIdx(s, start, |s|)
    {
      end := end - 1;
    }
    r := s[start..end];
  }

  // ---------------------------------------------------------------------
  // IsPrivateIP
  // ---------------------------------------------------------------------

  /** `s` cut at every '.'; a text without '.' is one field. */
  function Fields(s: string): (r: seq<string>)
    ensures |r| >= 1
  {
    if s == [] then [""]
    else
      var rest := Fields(s[1..]);
      if s[0] == '.' then [""] + rest else [[s[0]] + rest[0]] + rest[1..]
  }

  predicate NoDot(s: string)
  {
    forall i :: 0 <= i < |s| ==> s[i] != '.'
  }

  lemma {:induction false} FieldsOfNoDot(p: string)
    requires NoDot(p)
    ensures Fields(p) == [p]
  {
    if p != [] {
      FieldsOfNoDot(p[1..]);
      assert [p[0]] + p[1..] == p;
    }
  }

  lemma {:induction false} FieldsJoin(p: string, q: string)
    requires NoDot(p)
    ensures Fields(p + "." + q) == [p] + Fields(q)
  {
    if p == [] {
      assert (p + "." + q)[1..] == q;
    } else {
      assert (p + "." + q)[1..] == p[1..] + "." + q;
      FieldsJoin(p[1..], q);
      assert [p[0]] + p[1..] == p;
    }
  }

  /** One field of a dotted quad as `inet_pton` reads it: 1 to 3 digits, no leading zero, at most 255. */
  function Octet(f: string): (r: Option<nat>)
    ensures r.Some? ==> r.value <= 255
  {
    if 1 <= |f| <= 3 && D.AllDigits(f) && (|f| > 1 ==> f[0] != '0') && D.Value(f) <= 255 then Some(D.Value(f))
    else None
  }

  /** The host-order 32-bit address a.b.c.d. */
  function Addr(a: nat, b: nat, c: nat, d: nat): nat
  {
    ((a * 256 + b) * 256 + c) * 256 + d
  }

  /** `inet_pton(AF_INET, ...)` then `ntohl`: an address only for a dotted quad. */
  function ParseIPv4(s: string): Option<nat>
  {
    var fs := Fields(s);
    if |fs| != 4 then None
    else
      match (Octet(fs[0]), Octet(fs[1]), Octet(fs[2]), Octet(fs[3]))
      case (Some(a), Some(b), Some(c), Some(d)) => Some(Addr(a, b, c, d))
      case _ => None
  }

  /**
   * The four masks of `IsPrivateIP`: `h & mask == net` is `h >> k == net >> k`
   * for a k-bit host part, written as a division.
   */
  predicate InPrivateRange(h: nat)
  {
    h / 0x100_0000 == 0x0A || h / 0x10_0000 == 0xAC1 || h / 0x1_0000 == 0xC0A8 || h / 0x100_0000 == 0x7F
  }

  predicate IsPrivateIP(ip: string)
  {
    ip == "127.0.0.1" || ip == "::1" || ip == "localhost" ||
    (ParseIPv4(ip).Some? && InPrivateRange(ParseIPv4(ip).value))
  }

  /** Two texts joined by a '.'. */
  function Dot(p: string, q: string): string
  {
    p + "." + q
  }

  /** The dotted-quad text of a.b.c.d. */
  function Dotted(a: nat, b: nat, c: nat, d: nat): string
  {
    Dot(D.Dec(a), Dot(D.Dec(b), Dot(D.Dec(c), D.Dec(d))))
  }

  lemma DecNoDot(n: nat)
    ensures NoDot(D.Dec(n))
  {
    var s := D.Dec(n);
    assert forall i :: 0 <= i < |s| ==> D.IsDigit(s[i]);
  }

  lemma OctetOfDec(n: nat)
    requires n <= 255
    ensures Octet(D.Dec(n)) == Some(n)
  {
    D.DecLength(n);
    D.ValueOfDec(n);
  }

  lemma FieldsOfDotted(a: nat, b: nat, c: nat, d: nat)
    ensures Fields(Dotted(a, b, c, d)) == [D.Dec(a), D.Dec(b), D.Dec(c), D.Dec(d)]
  {
    var sa, sb, sc, sd := D.Dec(a), D.Dec(b), D.Dec(c), D.Dec(d);
    DecNoDot(a);
    DecNoDot(b);
    DecNoDot(c);
    DecNoDot(d);
    FieldsOfNoDot(sd);
    FieldsJoin(sc, sd);
    FieldsJoin(sb, Dot(sc, sd));
    FieldsJoin(sa, Dot(sb, Dot(sc, sd)));
  }

  /** Reading the dotted quad back gives the address. */
  lemma ParseDotted(a: nat, b: nat, c: nat, d: nat)
    requires a <= 255 && b <= 255 && c <= 255 && d <= 255
    ensures ParseIPv4(Dotted(a, b, c, d)) == Some(Addr(a, b, c, d))
  {
    FieldsOfDotted(a, b, c, d);
    OctetOfDec(a);
    OctetOfDec(b);
    OctetOfDec(c);
    OctetOfDec(d);
  }

  lemma AddrShifts(a: nat, b: nat, c: nat, d: nat)
    requires a <= 255 && b <= 255 && c <= 255 && d <= 255
    ensures Addr(a, b, c, d) / 0x100_0000 == a
    ensures Addr(a, b, c, d) / 0x10_0000 == a * 16 + b / 16
    ensures Addr(a, b, c, d) / 0x1_0000 == a * 256 + b
  {
    var h := Addr(a, b, c, d);
    var low := c * 256 + d;
    assert h == a * 0x100_0000 + b * 0x1_0000 + low && low < 0x1_0000;
    DivUnique(h, 0x100_0000, a);
    DivUnique(h, 0x1_0000, a * 256 + b);
    DivMod(b, 16);
    assert h == (a * 16 + b / 16) * 0x10_0000 + (b % 16) * 0x1_0000 + low;
    DivUnique(h, 0x10_0000, a * 16 + b / 16);
  }

  /** The masks are the ranges 10/8, 172.16/12, 192.168/16 and 127/8. */
  lemma PrivateRanges(a: nat, b: nat, c: nat, d: nat)
    requires a <= 255 && b <= 255 && c <= 255 && d <= 255
    ensures InPrivateRange(Addr(a, b, c, d)) <==>
      a == 10 || (a == 172 && 16 <= b < 32) || (a == 192 && b == 168) || a == 127
  {
    AddrShifts(a, b, c, d);
    if a * 16 + b / 16 == 0xAC1 {
      assert a == 172 && b / 16 == 1;
    }
    if a == 172 && 16 <= b < 32 {
      DivUnique(b, 16, 1);
    }
  }

  /** The loopback literal is itself a dotted quad. */
  lemma LoopbackLiteral()
    ensures ParseIPv4("127.0.0.1") == Some(Addr(127, 0, 0, 1))
  {
    assert D.Dec(127) == "127" && D.Dec(0) == "0" && D.Dec(1) == "1";
    assert Dotted(127, 0, 0, 1) == "127.0.0.1";
    ParseDotted(127, 0, 0, 1);
  }

  lemma DottedIsNoName(a: nat, b: nat, c: nat, d: nat)
    ensures Dotted(a, b, c, d) != "::1" && Dotted(a, b, c, d) != "localhost"
  {
    assert D.IsDigit(D.Dec(a)[0]);
    assert Dotted(a, b, c, d)[0] == D.Dec(a)[0];
  }

  /**
   * `IsPrivateIP` on a dotted quad is exactly membership of 10/8,
   * 172.16/12, 192.168/16 or 127/8.
   */
  lemma PrivateDotted(a: nat, b: nat, c: nat, d: nat)
    requires a <= 255 && b <= 255 && c <= 255 && d <= 255
    ensures IsPrivateIP(Dotted(a, b, c, d)) <==>
      a == 10 || (a == 172 && 16 <= b < 32) || (a == 192 && b == 168) || a == 127
  {
    var s := Dotted(a, b, c, d);
    ParseDotted(a, b, c, d);
    PrivateRanges(a, b, c, d);
    DottedIsNoName(a, b, c, d);
    if s == "127.0.0.1" {
      LoopbackLiteral();
      AddrShifts(a, b, c, d);
      AddrShifts(127, 0, 0, 1);
    }
  }

  /** Text that is not a dotted quad, other than the three literals, is never private. */
  lemma UnparsedIsPublic(ip: string)
    requires ParseIPv4(ip).None? && ip != "127.0.0.1" && ip != "::1" && ip != "localhost"
    ensures !IsPrivateIP(ip)
  {
  }

  // ---------------------------------------------------------------------
  // GetClientIP
  // ---------------------------------------------------------------------

  /** The first entry of an X-Forwarded-For list: the text before the first ','. */
  function FirstEntry(s: string): (r: string)
    ensures |r| <= |s| && r == s[..|r|]
    ensures |r| == |s| || s[|r|] == ','
    ensures forall i :: 0 <= i < |r| ==> r[i] != ','
  {
    match Find(s, ",", 0)
    case Some(c) =>
      NoCharBefore(s, ',', 0, c);
      assert s[c..c + 1] == ",";
      s[..c]
    case None =>
      NoCharBefore(s, ',', 0, |s|);
      s
  }

  /**
   * `GetClientIP`: a public peer address is the client; behind a private
   * peer (a local proxy) the trimmed first X-Forwarded-For entry is, unless
   * the header is missing or that entry is blank.
   */
  function ClientIP(remote: string, forwarded: Option<string>): (r: string)
    ensures !IsPrivateIP(Trimmed(remote)) ==> r == Trimmed(remote)
    ensures r == Trimmed(remote) ||
      (IsPrivateIP(Trimmed(remote)) && forwarded.Some? && r != "" && r == Trimmed(FirstEntry(forwarded.value)))
    ensures Trimmed(r) == r
  {
    TrimFacts(remote);
    var rem := Trimmed(remote);
    if !IsPrivateIP(rem) then rem
    else if forwarded.Some? && forwarded.value != "" then
      var fwd := Trimmed(FirstEntry(forwarded.value));
      TrimFacts(FirstEntry(forwarded.value));
      if fwd != "" then fwd else rem
    else rem
  }

  /**
   * Behind a local proxy, the address the proxy put first in
   * X-Forwarded-For is the client's.
   */
  lemma ForwardedClient(remote: string, client: string, more: string)
    requires IsPrivateIP(Trimmed(remote))
    requires client != "" && Trimmed(client) == client
    requires forall i :: 0 <= i < |client| ==> client[i] != ','
    requires more == [] || more[0] == ','
    ensures ClientIP(remote, Some(client + more)) == client
  {
    var s := client + more;
    if more == [] {
      NoCharMatch(s, ',', 0);
      assert s == client;
    } else {
      assert s[|client|..|client| + 1] == ",";
      forall j | 0 <= j < |client|
        ensures !MatchAt(s, ",", j)
      {
        assert s[j..j + 1][0] == s[j];
      }
      FindFirst(s, ",", 0, |client|);
      assert s[..|client|] == client;
    }
  }

  // ---------------------------------------------------------------------
  // SetupCORS
  // ---------------------------------------------------------------------

  /** `extractHost`: the scheme up to "://" and the port from the first ':' are dropped. */
  function ExtractHost(s: string): (r: string)
    ensures forall i :: 0 <= i < |r| ==> r[i] != ':'
  {
    var h := match Find(s, "://", 0) case Some(p) => s[p + 3..] case None => s;
    match Find(h, ":", 0)
    case Some(q) =>
      NoCharBefore(h, ':', 0, q);
      h[..q]
    case None =>
      NoCharBefore(h, ':', 0, |h|);
      h
  }

  predicate NoColon(s: string)
  {
    forall i :: 0 <= i < |s| ==> s[i] != ':'
  }

  /** No match can start where the text does not have the pattern's first character. */
  lemma NoMatchBefore(s: string, pat: string, k: nat)
    requires 0 < |pat| && k <= |s|
    requires forall i :: 0 <= i < k ==> s[i] != pat[0]
    ensures forall j :: 0 <= j < k ==> !MatchAt(s, pat, j)
  {
    forall j | 0 <= j < k
      ensures !MatchAt(s, pat, j)
    {
      if j + |pat| <= |s| {
        assert s[j..j + |pat|][0] == s[j];
      }
    }
  }

  /** A text that differs from the pattern at offset k of position j has no match at j. */
  lemma Mismatch(s: string, pat: string, j: nat, k: nat)
    requires k < |pat| && (j + |pat| <= |s| ==> s[j + k] != pat[k])
    ensures !MatchAt(s, pat, j)
  {
    if j + |pat| <= |s| {
      assert s[j..j + |pat|][k] == s[j + k];
    }
  }

  /** In `host:port` with a numeric port, no "://" occurs. */
  lemma NoSchemeInAuthority(host: string, port: string)
    requires NoColon(host) && D.AllDigits(port)
    ensures Find(host + ":" + port, "://", 0) == None
  {
    var s := host + ":" + port;
    forall j | 0 <= j
      ensures !MatchAt(s, "://", j)
    {
      if j < |host| {
        Mismatch(s, "://", j, 0);
      } else if j == |host| {
        if j + 3 <= |s| {
          assert s[j + 1] == port[0];
        }
        Mismatch(s, "://", j, 1);
      } else {
        if j < |s| {
          assert s[j] == port[j - |host| - 1];
        }
        Mismatch(s, "://", j, 0);
      }
    }
  }

  /** In `host:port`, the first ':' ends the host. */
  lemma PortCut(host: string, port: string)
    requires NoColon(host)
    ensures Find(host + ":" + port, ":", 0) == Some(|host|)
    ensures (host + ":" + port)[..|host|] == host
  {
    var s := host + ":" + port;
    NoMatchBefore(s, ":", |host|);
    assert s[|host|..|host| + 1] == ":";
    FindFirst(s, ":", 0, |host|);
  }

  /** The host of `host:port`, as the Host header carries it. */
  lemma HostOfAuthority(host: string, port: string)
    requires NoColon(host) && D.AllDigits(port)
    ensures ExtractHost(host + ":" + port) == host
  {
    NoSchemeInAuthority(host, port);
    PortCut(host, port);
  }

  /** The host of `scheme://host:port`, as browsers send Origin. */
  lemma HostOfOrigin(scheme: string, host: string, port: string)
    requires NoColon(scheme) && NoColon(host) && D.AllDigits(port)
    ensures ExtractHost(scheme + "://" + host + ":" + port) == host
  {
    var s := scheme + "://" + host + ":" + port;
    NoMatchBefore(s, "://", |scheme|);
    assert s[|scheme|..|scheme| + 3] == "://";
    FindFirst(s, "://", 0, |scheme|);
    assert s[|scheme| + 3..] == host + ":" + port;
    PortCut(host, port);
  }

  predicate IsLoopbackName(h: string)
  {
    h == "localhost" || h == "127.0.0.1"
  }

  /**
   * The CORS host rule: an Origin header is present, and the origin's or
   * the Host header's host is a loopback name, or the two hosts agree.
   */
  predicate CorsAllowed(origin: string, host: string)
  {
    var oh, hh := ExtractHost(origin), ExtractHost(host);
    origin != "" && (IsLoopbackName(oh) || IsLoopbackName(hh) || oh == hh)
  }

  const SECURITY_HEADERS: seq<(string, string)> :=
    [("X-Content-Type-Options", "nosniff"), ("X-Frame-Options", "DENY"), ("Referrer-Policy", "no-referrer")]

  /** `SetupCORS`: the headers set on a response, in order; a missing header reads as "". */
  function SetupCORS(origin: string, host: string): (r: seq<(string, string)>)
    ensures |r| >= 3 && r[..3] == SECURITY_HEADERS
    ensures |r| == 3 || |r| == 7
    ensures |r| == 7 <==> CorsAllowed(origin, host)
    ensures |r| == 7 ==> r[3] == ("Access-Control-Allow-Origin", origin) && r[6] == ("Access-Control-Allow-Credentials", "true")
  {
    if CorsAllowed(origin, host) then
      SECURITY_HEADERS + [
        ("Access-Control-Allow-Origin", origin),
        ("Access-Control-Allow-Methods", "GET, POST, OPTIONS"),
        ("Access-Control-Allow-Headers", "Content-Type, Authorization"),
        ("Access-Control-Allow-Credentials", "true")]
    else SECURITY_HEADERS
  }

  /**
   * A page served from the host the request reached may call it; a page
   * from another, non-loopback host may not.
   */
  lemma CorsSameHost(scheme: string, oh: string, oport: string, hh: string, hport: string)
    requires NoColon(scheme) && NoColon(oh) && NoColon(hh) && D.AllDigits(oport) && D.AllDigits(hport)
    ensures CorsAllowed(scheme + "://" + oh + ":" + oport, hh + ":" + hport) <==>
      IsLoopbackName(oh) || IsLoopbackName(hh) || oh == hh
  {
    HostOfOrigin(scheme, oh, oport);
    HostOfAuthority(hh, hport);
  }

  // ---------------------------------------------------------------------
  // RefreshMonitorList
  // ---------------------------------------------------------------------

  /** What the OS reports for one monitor, in enumeration order. */
  datatype Display = Display(
    infoOk: bool,       // `GetMonitorInfoW` succeeded
    width: int,
    height: int,
    frequency: nat,     // `dmDisplayFrequency`, 0 when unknown
    primary: bool,
    name: string)       // the friendly name, else the GDI device name

  datatype MonitorInfo = MonitorInfo(index: int, width: int, height: int, refreshRate: nat, isPrimary: bool, name: string)

  /** The entry pushed for a display when the list already has n entries. */
  function Entry(n: nat, d: Display): (m: MonitorInfo)
    ensures m.refreshRate > 0 && (d.frequency > 0 ==> m.refreshRate == d.frequency)
  {
    MonitorInfo(n, d.width, d.height, if d.frequency > 0 then d.frequency else 60, d.primary, d.name)
  }

  /** The list the enumeration callback builds: displays whose info query failed are skipped. */
  function Enumerated(ds: seq<Display>): (r: seq<MonitorInfo>)
    ensures |r| <= |ds|
    ensures forall i :: 0 <= i < |r| ==> r[i].index == i && r[i].refreshRate > 0
  {
    if ds == [] then []
    else
      var prev := Enumerated(ds[..|ds| - 1]);
      if ds[|ds| - 1].infoOk then prev + [Entry(|prev|, ds[|ds| - 1])] else prev
  }

  /** The sort comparator: primary monitors first, then by index. */
  predicate Before(a: MonitorInfo, b: MonitorInfo)
  {
    if a.isPrimary != b.isPrimary then a.isPrimary else a.index < b.index
  }

  /** The entries of `ms` that are (or are not) primary, in their order. */
  function Select(ms: seq<MonitorInfo>, primary: bool): (r: seq<MonitorInfo>)
    ensures |r| <= |ms|
    ensures forall x :: x in r ==> x in ms && x.isPrimary == primary
  {
    if ms == [] then []
    else
      var prev := Select(ms[..|ms| - 1], primary);
      if ms[|ms| - 1].isPrimary == primary then prev + [ms[|ms| - 1]] else prev
  }

  /**
   * The order `std::sort` leaves: with enumeration indices all distinct
   * the comparator is a strict total order, so the sorted order is the
   * primaries, then the others, each group in enumeration order.
   */
  function PrimaryFirst(ms: seq<MonitorInfo>): seq<MonitorInfo>
  {
    Select(ms, true) + Select(ms, false)
  }

  predicate IndicesIncrease(ms: seq<MonitorInfo>)
  {
    forall i, j :: 0 <= i < j < |ms| ==> ms[i].index < ms[j].index
  }

  lemma {:induction false} SelectIncreases(ms: seq<MonitorInfo>, primary: bool)
    requires IndicesIncrease(ms)
    ensures IndicesIncrease(Select(ms, primary))
  {
    if ms != [] {
      var init := ms[..|ms| - 1];
      var x := ms[|ms| - 1];
      SelectIncreases(init, primary);
      var prev := Select(init, primary);
      forall y | y in prev
        ensures y.index < x.index
      {
        var k :| 0 <= k < |init| && init[k] == y;
      }
    }
  }

  lemma {:induction false} SelectSplits(ms: seq<MonitorInfo>)
    ensures multiset(Select(ms, true)) + multiset(Select(ms, false)) == multiset(ms)
  {
    if ms != [] {
      var init := ms[..|ms| - 1];
      SelectSplits(init);
      assert ms == init + [ms[|ms| - 1]];
    }
  }

  /**
   * `PrimaryFirst` is what sorting by the comparator gives: a
   * permutation of the list in which every entry comes before the ones
   * after it.
   */
  lemma PrimaryFirstSorted(ms: seq<MonitorInfo>)
    requires IndicesIncrease(ms)
    ensures var p := PrimaryFirst(ms);
      && multiset(p) == multiset(ms)
      && forall i, j :: 0 <= i < j < |p| ==> Before(p[i], p[j])
  {
    var a, b := Select(ms, true), Select(ms, false);
    SelectIncreases(ms, true);
    SelectIncreases(ms, false);
    SelectSplits(ms);
    var p := a + b;
    forall i, j | 0 <= i < j < |p|
      ensures Before(p[i], p[j])
    {
      if j < |a| {
        assert p[i] == a[i] && p[j] == a[j];
      } else if i >= |a| {
        assert p[i] == b[i - |a|] && p[j] == b[j - |a|];
      } else {
        assert p[i] in a && p[j] in b;
      }
    }
  }

  /** Every entry renumbered with its position. */
  function Renumbered(ms: seq<MonitorInfo>): (r: seq<MonitorInfo>)
    ensures |r| == |ms| && forall i :: 0 <= i < |r| ==> r[i] == ms[i].(index := i)
  {
    seq(|ms|, i requires 0 <= i < |ms| => ms[i].(index := i))
  }

  lemma EnumeratedStep(ds: seq<Display>, k: nat)
    requires k < |ds|
    ensures var prev := Enumerated(ds[..k]);
      Enumerated(ds[..k + 1]) == if ds[k].infoOk then prev + [Entry(|prev|, ds[k])] else prev
  {
    assert ds[..k + 1][..k] == ds[..k];
  }

  /** `g_monitors`. */
  class MonitorList {
    var monitors: seq<MonitorInfo>

    constructor()
      ensures monitors == []
    {
      monitors := [];
    }

    /**
     * `RefreshMonitorList`: rebuilt from the enumeration, sorted primary
     * first, and renumbered 0..n-1.
     */
    method Refresh(ds: seq<Display>)
      modifies this
      ensures monitors == Renumbered(PrimaryFirst(Enumerated(ds)))
    {
      monitors := [];
      var k := 0;
      while k < |ds|
        invariant 0 <= k <= |ds| && monitors == Enumerated(ds[..k])
      {
        EnumeratedStep(ds, k);
        if ds[k].infoOk {
          monitors := monitors + [Entry(|monitors|, ds[k])];
        }
        k := k + 1;
      }
      assert ds[..|ds|] == ds;
      monitors := PrimaryFirst(monitors);
      Renumber();
    }

    /** The closing loop of `RefreshMonitorList`: each entry takes its position as index. */
    method Renumber()
      modifies this
      ensures monitors == Renumbered(old(monitors))
    {
      var i := 0;
      while i < |monitors|
        invariant 0 <= i <= |monitors| == |old(monitors)|
        invariant forall j :: 0 <= j < i ==> monitors[j] == old(monitors)[j].(index := j)
        invariant forall j :: i <= j < |monitors| ==> monitors[j] == old(monitors)[j]
      {
        monitors := monitors[i := monitors[i].(index := i)];
        i := i + 1;
      }
    }
  }

  /**
   * After a refresh: one entry per display whose info query succeeded,
   * numbered 0..n-1, primaries first and otherwise in enumeration order,
   * with a positive refresh rate.
   */
  lemma RefreshOrder(ds: seq<Display>)
    ensures var e := Enumerated(ds);
      var r := Renumbered(PrimaryFirst(e));
      && multiset(PrimaryFirst(e)) == multiset(e)
      && |r| == |e|
      && (forall i :: 0 <= i < |r| ==> r[i].index == i && r[i].refreshRate > 0)
      && (forall i, j :: 0 <= i < j < |r| && r[j].isPrimary ==> r[i].isPrimary)
  {
    var e := Enumerated(ds);
    assert IndicesIncrease(e);
    PrimaryFirstSorted(e);
    PermutationKeepsRates(e, PrimaryFirst(e));
  }

  lemma PermutationKeepsRates(e: seq<MonitorInfo>, p: seq<MonitorInfo>)
    requires multiset(p) == multiset(e)
    requires forall i :: 0 <= i < |e| ==> e[i].refreshRate > 0
    ensures |p| == |e| && forall i :: 0 <= i < |p| ==> p[i].refreshRate > 0
  {
    assert |multiset(p)| == |multiset(e)|;
    forall i | 0 <= i < |p|
      ensures p[i].refreshRate > 0
    {
      assert p[i] in multiset(e);
    }
  }
}
