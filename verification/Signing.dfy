/** Webhook signatures: the signed string is the timestamp in decimal, a dot and the body. It is uniquely readable,
    so a signature that verifies was made for the same timestamp and body unless the MAC collides. */
module Signing {
  import opened Types

  newtype byte = x: int | 0 <= x < 256

  /** HMAC-SHA256 of a message under a secret, as far as this module is concerned: any function. */
  type Mac = (seq<byte>, seq<byte>) -> seq<byte>

  const MINUS: byte := 45
  const DOT: byte := 46
  const ZERO: byte := 48

  // ----- Printing a timestamp

  function Digits(n: nat): seq<byte> {
    if n < 10 then [ZERO + n as byte] else Digits(n / 10) + [ZERO + (n % 10) as byte]
  }

  function Decimal(n: int): seq<byte> {
    if n < 0 then [MINUS] + Digits(-n) else Digits(n)
  }

  function Canonical(timestamp: int, body: seq<byte>): seq<byte> {
    Decimal(timestamp) + [DOT] + body
  }

  // ----- Reading it back

  predicate IsDigit(b: byte) { ZERO <= b < ZERO + 10 }
  predicate AllDigits(s: seq<byte>) { forall i :: 0 <= i < |s| ==> IsDigit(s[i]) }

  function ValueOf(s: seq<byte>): nat
    requires AllDigits(s)
  {
    if s == [] then 0 else 10 * ValueOf(s[..|s| - 1]) + (s[|s| - 1] - ZERO) as nat
  }

  /** A numeral without leading zeros. */
  predicate IsNumeral(s: seq<byte>) { s != [] && AllDigits(s) && (|s| > 1 ==> s[0] != ZERO) }

  predicate IsDecimal(s: seq<byte>) {
    IsNumeral(s) || (s != [] && s[0] == MINUS && IsNumeral(s[1..]) && s[1..] != [ZERO])
  }

  function IntOf(s: seq<byte>): int
    requires IsDecimal(s)
  {
    if IsNumeral(s) then ValueOf(s) else 0 - ValueOf(s[1..])
  }

  /** The position of the first dot, or the length. */
  function DotAt(s: seq<byte>): (k: nat)
    ensures k <= |s| && (forall i :: 0 <= i < k ==> s[i] != DOT) && (k < |s| ==> s[k] == DOT)
  {
    if s == [] || s[0] == DOT then 0 else 1 + DotAt(s[1..])
  }

  /** Splits at the first dot; the head has to be a decimal number as Python prints it. */
  function Read(s: seq<byte>): Option<(int, seq<byte>)> {
    var k := DotAt(s);
    if k < |s| && IsDecimal(s[..k]) then Some((IntOf(s[..k]), s[k + 1..])) else None
  }

  lemma {:induction false} DigitsRead(n: nat)
    ensures IsNumeral(Digits(n)) && ValueOf(Digits(n)) == n && (n > 0 ==> Digits(n)[0] != ZERO)
  {
    if n < 10 {
      assert Digits(n)[..0] == [];
    } else {
      DigitsRead(n / 10);
      assert Digits(n)[..|Digits(n)| - 1] == Digits(n / 10);
    }
  }

  lemma DecimalReads(n: int)
    ensures IsDecimal(Decimal(n)) && IntOf(Decimal(n)) == n
    ensures forall i :: 0 <= i < |Decimal(n)| ==> Decimal(n)[i] != DOT
  {
    DigitsRead(if n < 0 then -n else n);
    if n < 0 {
      assert Decimal(n)[1..] == Digits(-n);
      assert !IsDigit(Decimal(n)[0]);
    }
  }

  lemma {:induction false} ValueOfPositive(s: seq<byte>)
    requires IsNumeral(s) && s != [ZERO]
    ensures ValueOf(s) > 0
    decreases |s|
  {
    if |s| > 1 { ValueOfPositive(s[..|s| - 1]); }
  }

  lemma {:induction false} NumeralPrints(s: seq<byte>)
    requires IsNumeral(s)
    ensures Digits(ValueOf(s)) == s
    decreases |s|
  {
    var init, last := s[..|s| - 1], s[|s| - 1];
    assert s == init + [last];
    if init != [] {
      NumeralPrints(init);
      ValueOfPositive(init);
    }
  }

  lemma DecimalPrints(s: seq<byte>)
    requires IsDecimal(s)
    ensures Decimal(IntOf(s)) == s
  {
    if IsNumeral(s) {
      NumeralPrints(s);
    } else {
      NumeralPrints(s[1..]);
      ValueOfPositive(s[1..]);
    }
  }

  lemma DotFound(head: seq<byte>, rest: seq<byte>)
    requires forall i :: 0 <= i < |head| ==> head[i] != DOT
    ensures DotAt(head + [DOT] + rest) == |head|
  {
    var s := head + [DOT] + rest;
    assert s[|head|] == DOT;
    assert forall i :: 0 <= i < |head| ==> s[i] == head[i];
  }

  /** The signed strings are exactly those that can be read, and reading gives back what was written. */
  lemma UniqueReadability(s: seq<byte>, timestamp: int, body: seq<byte>)
    ensures s == Canonical(timestamp, body) <==> Read(s) == Some((timestamp, body))
  {
    if s == Canonical(timestamp, body) {
      DecimalReads(timestamp);
      DotFound(Decimal(timestamp), body);
      assert s[..|Decimal(timestamp)|] == Decimal(timestamp);
      assert s[|Decimal(timestamp)| + 1..] == body;
    }
    if Read(s) == Some((timestamp, body)) {
      var k := DotAt(s);
      DecimalPrints(s[..k]);
      assert s == s[..k] + [DOT] + s[k + 1..];
    }
  }

  /** The number that a run of ASCII digits stands for. */
  function Horner(s: seq<byte>): int {
    if s == [] then 0 else 10 * Horner(s[..|s| - 1]) + (s[|s| - 1] as int - 48)
  }

  lemma {:induction false} HornerIsValue(s: seq<byte>)
    requires AllDigits(s)
    ensures Horner(s) == ValueOf(s)
    decreases |s|
  {
    if s != [] { HornerIsValue(s[..|s| - 1]); }
  }

  /** Byte for byte, the signed string of a time: ASCII digits without a leading zero that stand for the time, a dot,
      and the body as it is. A time before 1970 has a minus sign in front. */
  lemma CanonicalBytes(timestamp: int, body: seq<byte>)
    ensures exists k: nat :: IsSignedAs(Canonical(timestamp, body), k, timestamp, body)
  {
    var s := Canonical(timestamp, body);
    var n: nat := if timestamp < 0 then -timestamp else timestamp;
    DigitsRead(n);
    HornerIsValue(Digits(n));
    var k := |Decimal(timestamp)|;
    assert s[k + 1..] == body;
    if timestamp < 0 {
      assert s[1..k] == Digits(n);
    } else {
      assert s[..k] == Digits(n);
    }
    assert IsSignedAs(s, k, timestamp, body);
  }

  ghost predicate IsSignedAs(s: seq<byte>, k: nat, timestamp: int, body: seq<byte>) {
    && k < |s| && s[k] == 46 && s[k + 1..] == body
    && if timestamp >= 0 then
         0 < k && (forall i :: 0 <= i < k ==> 48 <= s[i] <= 57) && (k > 1 ==> s[0] != 48) && Horner(s[..k]) == timestamp
       else
         1 < k && s[0] == 45 && (forall i :: 1 <= i < k ==> 48 <= s[i] <= 57) && s[1] != 48 && Horner(s[1..k]) == -timestamp
  }

  lemma CanonicalIsInjective(t: int, b: seq<byte>, t': int, b': seq<byte>)
    requires Canonical(t, b) == Canonical(t', b')
    ensures t == t' && b == b'
  {
    UniqueReadability(Canonical(t, b), t, b);
    UniqueReadability(Canonical(t, b), t', b');
  }

  // ----- The header

  const PREFIX := "sha256="

  function HexDigit(n: nat): char
    requires n < 16
  {
    "0123456789abcdef"[n]
  }

  function Hex(s: seq<byte>): string {
    if s == [] then "" else HexPair(s[0]) + Hex(s[1..])
  }

  /** What a lower-case hex digit stands for. */
  function HexValue(ch: char): int {
    if '0' <= ch <= '9' then ch as int - '0' as int else if 'a' <= ch <= 'f' then ch as int - 'a' as int + 10 else -1
  }

  /** Each byte is two lower-case hex digits, the high one first. */
  lemma {:induction false} HexReads(s: seq<byte>, i: nat)
    requires i < |s|
    ensures 2 * i + 1 < |Hex(s)|
    ensures 0 <= HexValue(Hex(s)[2 * i]) < 16 && 0 <= HexValue(Hex(s)[2 * i + 1]) < 16
    ensures s[i] as int == 16 * HexValue(Hex(s)[2 * i]) + HexValue(Hex(s)[2 * i + 1])
    decreases |s|
  {
    if i == 0 {
      PairReads(s[0]);
    } else {
      hide HexPair;
      HexReads(s[1..], i - 1);
    }
  }

  lemma DigitReads(n: nat)
    requires n < 16
    ensures HexValue(HexDigit(n)) == n
  {
  }

  lemma PairReads(b: byte)
    ensures 0 <= HexValue(HexPair(b)[0]) < 16 && 0 <= HexValue(HexPair(b)[1]) < 16
    ensures b as int == 16 * HexValue(HexPair(b)[0]) + HexValue(HexPair(b)[1])
  {
    hide HexDigit, HexValue;
    DigitReads((b / 16) as nat);
    DigitReads((b % 16) as nat);
  }

  lemma HexDigitIsInjective(n: nat, m: nat)
    requires n < 16 && m < 16 && HexDigit(n) == HexDigit(m)
    ensures n == m
  {
  }

  function HexPair(b: byte): (p: string)
    ensures |p| == 2
  { [HexDigit((b / 16) as nat), HexDigit((b % 16) as nat)] }

  lemma HexPairIsInjective(b: byte, b': byte)
    requires HexPair(b) == HexPair(b')
    ensures b == b'
  {
    HexDigitIsInjective((b / 16) as nat, (b' / 16) as nat);
    HexDigitIsInjective((b % 16) as nat, (b' % 16) as nat);
  }

  lemma {:induction false} HexIsInjective(s: seq<byte>, s': seq<byte>)
    requires Hex(s) == Hex(s')
    ensures s == s'
    decreases |s|
  {
    if s != [] && s' != [] {
      hide HexPair;
      assert Hex(s)[..2] == HexPair(s[0]) && Hex(s')[..2] == HexPair(s'[0]);
      HexPairIsInjective(s[0], s'[0]);
      assert Hex(s)[2..] == Hex(s[1..]) && Hex(s')[2..] == Hex(s'[1..]);
      HexIsInjective(s[1..], s'[1..]);
    }
  }

  /** The header and the timestamp it is for; without a given timestamp it is the time of the call. */
  function Sign(mac: Mac, secret: seq<byte>, body: seq<byte>, timestamp: Option<int>, nowMs: int): (r: (string, int))
    ensures r.1 == if timestamp == None then nowMs else timestamp.value
    ensures "sha256=" <= r.0 && r.0[7..] == Hex(mac(secret, Canonical(r.1, body)))
  {
    var t := if timestamp.Some? then timestamp.value else nowMs;
    (PREFIX + Hex(mac(secret, Canonical(t, body))), t)
  }

  function Abs(n: int): nat { if n < 0 then -n else n }

  predicate Verify(mac: Mac, secret: seq<byte>, body: seq<byte>, header: string, timestamp: int, toleranceSeconds: int,
                   nowMs: int)
  {
    if Abs(nowMs - timestamp) > toleranceSeconds * 1000 then false
    else Sign(mac, secret, body, Some(timestamp), nowMs).0 == header
  }

  ghost predicate Collides(mac: Mac, secret: seq<byte>, m: seq<byte>, secret': seq<byte>, m': seq<byte>) {
    mac(secret, m) == mac(secret', m')
  }

  lemma HeadersEqualIff(x: seq<byte>, y: seq<byte>)
    ensures PREFIX + Hex(x) == PREFIX + Hex(y) <==> x == y
  {
    if PREFIX + Hex(x) == PREFIX + Hex(y) {
      assert Hex(x) == (PREFIX + Hex(x))[|PREFIX|..];
      HexIsInjective(x, y);
    }
  }

  /** What `sign` makes for (t, b) under one secret verifies for (t', b') under another exactly inside the window
      and when the MACs of the two signed strings are equal. */
  lemma VerifyAcceptsIff(mac: Mac, secret: seq<byte>, b: seq<byte>, t: Option<int>, signedAt: int,
                         secret': seq<byte>, b': seq<byte>, t': int, tolerance: int, nowMs: int)
    ensures
      var header, t0 := Sign(mac, secret, b, t, signedAt).0, if t.Some? then t.value else signedAt;
      Verify(mac, secret', b', header, t', tolerance, nowMs) <==>
        && t' - tolerance * 1000 <= nowMs <= t' + tolerance * 1000
        && Collides(mac, secret', Canonical(t', b'), secret, Canonical(t0, b))
  {
    var (_, t0) := Sign(mac, secret, b, t, signedAt);
    HeadersEqualIff(mac(secret', Canonical(t', b')), mac(secret, Canonical(t0, b)));
  }

  /** The MAC gives different strings different values under this secret. */
  ghost predicate CollisionFree(mac: Mac, secret: seq<byte>) {
    forall m, m' :: Collides(mac, secret, m, secret, m') ==> m == m'
  }

  /** Sign and verify: with the same secret and a MAC without collisions, exactly the signed timestamp and body are
      accepted, and only inside the window. */
  lemma SignVerifyRoundTrip(mac: Mac, secret: seq<byte>, b: seq<byte>, t: Option<int>, signedAt: int,
                            b': seq<byte>, t': int, tolerance: int, nowMs: int)
    requires CollisionFree(mac, secret)
    ensures
      var header, t0 := Sign(mac, secret, b, t, signedAt).0, if t.Some? then t.value else signedAt;
      Verify(mac, secret, b', header, t', tolerance, nowMs) <==>
        t' == t0 && b' == b && t0 - tolerance * 1000 <= nowMs <= t0 + tolerance * 1000
  {
    var (_, t0) := Sign(mac, secret, b, t, signedAt);
    VerifyAcceptsIff(mac, secret, b, t, signedAt, secret, b', t', tolerance, nowMs);
    if Canonical(t', b') == Canonical(t0, b) { CanonicalIsInjective(t', b', t0, b); }
  }

  /** What the sender does: it signs at `signedAt` without giving a timestamp. For any MAC, its header is accepted for
      that time and body exactly while the receiver's clock is within the tolerance of it; and with a MAC without
      collisions for no other time or body, whenever the receiver looks. */
  lemma SenderRoundTrip(mac: Mac, secret: seq<byte>, body: seq<byte>, signedAt: int, tolerance: int, nowMs: int)
    ensures Sign(mac, secret, body, None, signedAt).1 == signedAt
    ensures Verify(mac, secret, body, Sign(mac, secret, body, None, signedAt).0, signedAt, tolerance, nowMs) <==>
      -tolerance * 1000 <= nowMs - signedAt <= tolerance * 1000
    ensures CollisionFree(mac, secret) ==>
      forall b', t' :: (t', b') != (signedAt, body) ==>
        !Verify(mac, secret, b', Sign(mac, secret, body, None, signedAt).0, t', tolerance, nowMs)
  {
    VerifyAcceptsIff(mac, secret, body, None, signedAt, secret, body, signedAt, tolerance, nowMs);
    if CollisionFree(mac, secret) {
      forall b', t' | (t', b') != (signedAt, body)
        ensures !Verify(mac, secret, b', Sign(mac, secret, body, None, signedAt).0, t', tolerance, nowMs)
      {
        SignVerifyRoundTrip(mac, secret, body, None, signedAt, b', t', tolerance, nowMs);
      }
    }
  }

  /** For any MAC: a header accepted for something else than what it was made for shows two different strings with
      the same MAC. */
  lemma TamperingNeedsACollision(mac: Mac, secret: seq<byte>, b: seq<byte>, t: int, b': seq<byte>, t': int,
                                 tolerance: int, nowMs: int)
    requires Verify(mac, secret, b', Sign(mac, secret, b, Some(t), nowMs).0, t', tolerance, nowMs)
    requires (t', b') != (t, b)
    ensures Canonical(t', b') != Canonical(t, b)
    ensures Collides(mac, secret, Canonical(t', b'), secret, Canonical(t, b))
  {
    VerifyAcceptsIff(mac, secret, b, Some(t), nowMs, secret, b', t', tolerance, nowMs);
    if Canonical(t', b') == Canonical(t, b) { CanonicalIsInjective(t', b', t, b); }
  }

  lemma {:induction false} HexShape(s: seq<byte>)
    ensures |Hex(s)| == 2 * |s| && forall i :: 0 <= i < |Hex(s)| ==> Hex(s)[i] in "0123456789abcdef"
  {
    if s != [] { HexShape(s[1..]); }
  }

  /** Only a header of the shape `sign` writes can be accepted: the prefix, then two lower-case hex digits for each
      byte of the MAC. */
  lemma AcceptedHeaderShape(mac: Mac, secret: seq<byte>, body: seq<byte>, header: string, timestamp: int,
                            tolerance: int, nowMs: int)
    requires Verify(mac, secret, body, header, timestamp, tolerance, nowMs)
    ensures tolerance >= 0 && "sha256=" <= header
    ensures |header| == 7 + 2 * |mac(secret, Canonical(timestamp, body))|
    ensures forall i :: 7 <= i < |header| ==> header[i] in "0123456789abcdef"
  {
    HexShape(mac(secret, Canonical(timestamp, body)));
  }
}
