/** Messages to the ADB server: four hex digits of length, then the command. */
module AdbMessages {
  import opened Wrappers

  // Numbers as text.

  function Digit(d: nat): char
    requires d < 16
  {
    "0123456789abcdef"[d]
  }

  function DigitValue(c: char): Option<nat> {
    if '0' <= c <= '9' then Some((c - '0') as nat)
    else if 'a' <= c <= 'f' then Some(10 + (c - 'a') as nat)
    else None
  }

  /** The digits of a number in a base, without leading zeros; zero is one digit. */
  function Digits(n: nat, base: nat): (s: string)
    requires 2 <= base <= 16
    ensures |s| >= 1
    decreases n
  {
    if n < base then [Digit(n)] else Digits(n / base, base) + [Digit(n % base)]
  }

  /** The "%.4x" of a length: at least four digits. */
  function Hex4(n: nat): string {
    var s := Digits(n, 16);
    if |s| >= 4 then s else Zeros(4 - |s|) + s
  }

  function Zeros(k: nat): (s: string)
    ensures |s| == k && forall i :: 0 <= i < k ==> s[i] == '0'
  {
    if k == 0 then "" else "0" + Zeros(k - 1)
  }

  /** Reading a number back; None if some character is no digit of the base. */
  function Parse(s: string, base: nat): Option<nat>
    requires 2 <= base <= 16
  {
    if s == "" then Some(0)
    else match (Parse(s[..|s| - 1], base), DigitValue(s[|s| - 1]))
         case (Some(hi), Some(d)) => if d < base then Some(hi * base + d) else None
         case _ => None
  }

  lemma DigitRoundTrip(d: nat)
    requires d < 16
    ensures DigitValue(Digit(d)) == Some(d)
  {
  }

  lemma DivMod(n: nat, b: nat)
    requires 2 <= b
    ensures n == n / b * b + n % b
    ensures 0 <= n % b < b
    ensures b <= n ==> n / b < n
  {
  }

  lemma ParseSnoc(t: string, c: char, base: nat)
    requires 2 <= base <= 16
    ensures Parse(t + [c], base) ==
              if Parse(t, base).Some? && DigitValue(c).Some? && DigitValue(c).value < base
              then Some(Parse(t, base).value * base + DigitValue(c).value) else None
  {
    assert (t + [c])[..|t + [c]| - 1] == t;
  }

  lemma {:induction false} DigitsRoundTrip(n: nat, base: nat)
    requires 2 <= base <= 16
    ensures Parse(Digits(n, base), base) == Some(n)
    decreases n
  {
    if n < base {
      assert [Digit(n)] == "" + [Digit(n)];
      ParseSnoc("", Digit(n), base);
      DigitRoundTrip(n);
    } else {
      DivMod(n, base);
      var q, r := n / base, n % base;
      DigitsRoundTrip(q, base);
      ParseSnoc(Digits(q, base), Digit(r), base);
      DigitRoundTrip(r);
    }
  }

  lemma {:induction false} LeadingZeros(k: nat, s: string, base: nat)
    requires 2 <= base <= 16 && Parse(s, base).Some?
    ensures Parse(Zeros(k) + s, base) == Parse(s, base)
    decreases k + |s|
  {
    if s == "" {
      assert Zeros(k) + s == Zeros(k);
      if k > 0 {
        ZerosSnoc(k);
        LeadingZeros(k - 1, "", base);
        assert Zeros(k - 1) + "" == Zeros(k - 1);
        ParseSnoc(Zeros(k - 1), '0', base);
      }
    } else {
      var t, c := s[..|s| - 1], s[|s| - 1];
      LeadingZeros(k, t, base);
      ParseSnoc(t, c, base);
      ParseSnoc(Zeros(k) + t, c, base);
      assert Zeros(k) + s == Zeros(k) + t + [c];
      assert s == t + [c];
    }
  }

  lemma {:induction false} ZerosSnoc(k: nat)
    requires k > 0
    ensures Zeros(k) == Zeros(k - 1) + "0"
  {
    if k > 1 {
      ZerosSnoc(k - 1);
    }
  }

  lemma {:induction false} DigitCount(n: nat, base: nat, k: nat, bound: nat)
    requires 2 <= base <= 16 && 1 <= k && n < bound && bound == Power(base, k)
    ensures |Digits(n, base)| <= k
    decreases k
  {
    if n >= base {
      assert k > 1;
      PowerSplit(n, base, k);
      DigitCount(n / base, base, k - 1, Power(base, k - 1));
    }
  }

  function Power(b: nat, k: nat): nat {
    if k == 0 then 1 else b * Power(b, k - 1)
  }

  lemma PowerSplit(n: nat, base: nat, k: nat)
    requires 2 <= base && 1 < k && n < Power(base, k)
    ensures n / base < Power(base, k - 1)
  {
    DivBound(n, base, Power(base, k - 1));
  }

  lemma DivBound(n: nat, b: nat, p: nat)
    requires 2 <= b && n < b * p
    ensures n / b < p
  {
    DivMod(n, b);
    Monotone(p, n / b, b);
  }

  lemma Monotone(x: nat, y: nat, b: nat)
    ensures x <= y ==> x * b <= y * b
  {
    if x <= y {
      assert y * b == x * b + (y - x) * b;
    }
  }

  /** A number of `k` digits is below the k-th power of the base. */
  lemma {:induction false} ParseBound(s: string, base: nat)
    requires 2 <= base <= 16 && Parse(s, base).Some?
    ensures Parse(s, base).value < Power(base, |s|)
  {
    if s == "" {
    } else {
      var t := s[..|s| - 1];
      ParseBound(t, base);
      ParseSnoc(t, s[|s| - 1], base);
      assert t + [s[|s| - 1]] == s;
      NextDigit(Parse(t, base).value, DigitValue(s[|s| - 1]).value, base, Power(base, |t|));
    }
  }

  lemma NextDigit(hi: nat, d: nat, base: nat, p: nat)
    requires hi < p && d < base
    ensures hi * base + d < base * p
  {
    Monotone(hi + 1, p, base);
    assert (hi + 1) * base == hi * base + base;
  }

  // Framing.

  function Frame(msg: string): string {
    Hex4(|msg|) + msg
  }

  /** What a reader of the frame does: four hex digits, then that many characters; the rest is left over. */
  function Unframe(s: string): Option<(string, string)> {
    if |s| < 4 then None
    else match Parse(s[..4], 16)
         case None => None
         case Some(n) => if |s| - 4 < n then None else Some((s[4..4 + n], s[4 + n..]))
  }

  lemma FrameReadBack(msg: string, rest: string)
    requires |msg| < 0x10000
    ensures Unframe(Frame(msg) + rest) == Some((msg, rest))
  {
    var n := |msg|;
    HexLength(n);
    DigitsRoundTrip(n, 16);
    var s := Digits(n, 16);
    if |s| < 4 {
      LeadingZeros(4 - |s|, s, 16);
    }
    var f := Frame(msg) + rest;
    assert f[..4] == Hex4(n);
    assert f[4..4 + n] == msg;
    assert f[4 + n..] == rest;
  }

  /**
   * A frame is read back, with whatever follows it left over, exactly when the message's length has
   * four hex digits; a longer one gets a fifth digit and the reader mistakes the boundary.
   */
  lemma FrameRoundTrip(msg: string, rest: string)
    ensures Unframe(Frame(msg) + rest) == Some((msg, rest)) <==> |msg| < 0x10000
  {
    if |msg| < 0x10000 {
      FrameReadBack(msg, rest);
    } else {
      var head := (Frame(msg) + rest)[..4];
      if Parse(head, 16).Some? {
        ParseBound(head, 16);
        assert Power(16, 4) == 0x10000;
      }
    }
  }

  lemma HexLength(n: nat)
    requires n < 0x10000
    ensures |Digits(n, 16)| <= 4
  {
    assert Power(16, 1) == 16;
    assert Power(16, 2) == 256;
    assert Power(16, 3) == 4096;
    assert Power(16, 4) == 0x10000;
    DigitCount(n, 16, 4, 0x10000);
  }

  function Address(port: nat): string {
    "127.0.0.1:" + Digits(port, 10)
  }

  function ConnectCommand(port: nat): string {
    "host:connect:" + Address(port)
  }

  function DisconnectCommand(port: nat): string {
    "host:disconnect:" + Address(port)
  }

  /** The number after the last colon. */
  function PortOf(command: string): Option<nat> {
    Parse(AfterLastColon(command), 10)
  }

  function AfterLastColon(s: string): string {
    if s == "" || s[|s| - 1] == ':' then "" else AfterLastColon(s[..|s| - 1]) + [s[|s| - 1]]
  }

  lemma {:induction false} DigitsHaveNoColon(n: nat)
    ensures ':' !in Digits(n, 10)
    decreases n
  {
    if n >= 10 {
      DigitsHaveNoColon(n / 10);
    }
  }

  lemma {:induction false} SuffixAfterColon(prefix: string, suffix: string)
    requires prefix != "" && prefix[|prefix| - 1] == ':' && ':' !in suffix
    ensures AfterLastColon(prefix + suffix) == suffix
    decreases |suffix|
  {
    if suffix == "" {
      assert prefix + suffix == prefix;
    } else {
      var n := |suffix| - 1;
      assert (prefix + suffix)[..|prefix + suffix| - 1] == prefix + suffix[..n];
      SuffixAfterColon(prefix, suffix[..n]);
    }
  }

  /** A reader of the bytes gets the command, and from its end the port. */
  ghost predicate Carries(bytes: string, command: string, port: nat) {
    Unframe(bytes) == Some((command, "")) && PortOf(command) == Some(port)
  }

  /** A command ending in a colon and a port is read back from its frame, and the port from it. */
  lemma CommandRoundTrip(prefix: string, port: nat)
    requires 0 < |prefix| <= 30 && prefix[|prefix| - 1] == ':' && port <= 65535
    ensures Carries(Frame(prefix + Digits(port, 10)), prefix + Digits(port, 10), port)
  {
    var command := prefix + Digits(port, 10);
    DecimalLength(port);
    FrameRoundTrip(command, "");
    assert Frame(command) + "" == Frame(command);
    DigitsHaveNoColon(port);
    SuffixAfterColon(prefix, Digits(port, 10));
    DigitsRoundTrip(port, 10);
  }

  lemma DecimalLength(port: nat)
    requires port <= 65535
    ensures |Digits(port, 10)| <= 5
  {
    assert Power(10, 1) == 10;
    assert Power(10, 2) == 100;
    assert Power(10, 3) == 1000;
    assert Power(10, 4) == 10000;
    assert Power(10, 5) == 100000;
    DigitCount(port, 10, 5, 100000);
  }

  lemma ConnectRoundTrip(port: nat)
    requires port <= 65535
    ensures Carries(Frame(ConnectCommand(port)), ConnectCommand(port), port)
  {
    var prefix := "host:connect:" + "127.0.0.1:";
    CommandRoundTrip(prefix, port);
    assert prefix + Digits(port, 10) == ConnectCommand(port);
  }

  lemma DisconnectRoundTrip(port: nat)
    requires port <= 65535
    ensures Carries(Frame(DisconnectCommand(port)), DisconnectCommand(port), port)
  {
    var prefix := "host:disconnect:" + "127.0.0.1:";
    CommandRoundTrip(prefix, port);
    assert prefix + Digits(port, 10) == DisconnectCommand(port);
  }

  /** The commands begin with what they ask for, so one is never taken for the other. */
  lemma CommandsSayWhat(port: nat, other: nat)
    ensures "host:connect:" <= ConnectCommand(port) && "host:disconnect:" <= DisconnectCommand(port)
    ensures ConnectCommand(port) != DisconnectCommand(other)
  {
    assert ConnectCommand(port)[5] == 'c' && DisconnectCommand(other)[5] == 'd';
  }

  // Writing.

  /** What one call of Write does: how many of the remaining bytes it took, or an error. */
  datatype WriteResult = Wrote(n: nat) | WriteError

  /** The write loop: on success the whole message is out, on an error a proper prefix of it. */
  method WriteAll(msg: string, connection: nat -> WriteResult) returns (ok: bool, written: string)
    requires forall k :: connection(k).Wrote? ==> 0 < connection(k).n
    ensures written <= msg
    ensures ok <==> written == msg
    ensures (forall k :: connection(k).Wrote?) ==> ok
  {
    written := "";
    var k := 0;
    var length := 0;
    while length < |msg|
      invariant 0 <= length <= |msg| && written == msg[..length]
    {
      match connection(k)
      case WriteError =>
        return false, written;
      case Wrote(n) =>
        var l := if n <= |msg| - length then n else |msg| - length;
        written := written + msg[length..length + l];
        length := length + l;
      k := k + 1;
    }
    ok := true;
  }

  method SendMsg(msg: string, dialed: bool, connection: nat -> WriteResult) returns (ok: bool, bytes: string)
    requires forall k :: connection(k).Wrote? ==> 0 < connection(k).n
    ensures bytes <= Frame(msg)
    ensures ok <==> dialed && bytes == Frame(msg)
  {
    if !dialed {
      return false, "";
    }
    ok, bytes := WriteAll(Frame(msg), connection);
  }

  /** Under every schedule of partial writes, a Connect that succeeds has told the server to connect to the port. */
  method Connect(port: nat, dialed: bool, connection: nat -> WriteResult) returns (ok: bool, bytes: string)
    requires port <= 65535
    requires forall k :: connection(k).Wrote? ==> 0 < connection(k).n
    ensures ok ==> Carries(bytes, ConnectCommand(port), port)
    ensures !ok ==> bytes <= Frame(ConnectCommand(port))
  {
    ConnectRoundTrip(port);
    ok, bytes := SendMsg(ConnectCommand(port), dialed, connection);
  }

  method Disconnect(port: nat, dialed: bool, connection: nat -> WriteResult) returns (ok: bool, bytes: string)
    requires port <= 65535
    requires forall k :: connection(k).Wrote? ==> 0 < connection(k).n
    ensures ok ==> Carries(bytes, DisconnectCommand(port), port)
    ensures !ok ==> bytes <= Frame(DisconnectCommand(port))
  {
    DisconnectRoundTrip(port);
    ok, bytes := SendMsg(DisconnectCommand(port), dialed, connection);
  }
}
