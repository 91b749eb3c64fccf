/** UTF-8 as section 3 and 4 of RFC 3629 define it, with Python's two error modes. */
module Utf8 {
  import opened Wrappers
  import opened Seqs

  type byte = b: int | 0 <= b < 0x100

  const NEWLINE: byte := 0x0A
  const REPLACEMENT: char := '\U{FFFD}'

  /** What one decoding step finds: a character, or an ill-formed subpart, and how many bytes it took. */
  datatype Step = Char(c: char, size: nat) | Bad(size: nat)

  predicate IsTail(s: seq<byte>, i: nat) {
    i < |s| && 0x80 <= s[i] <= 0xBF
  }

  /** The second byte of a multi-byte sequence; its range depends on the first. */
  predicate IsSecond(s: seq<byte>)
    requires s != []
  {
    && IsTail(s, 1)
    && (s[0] == 0xE0 ==> 0xA0 <= s[1])
    && (s[0] == 0xED ==> s[1] <= 0x9F)
    && (s[0] == 0xF0 ==> 0x90 <= s[1])
    && (s[0] == 0xF4 ==> s[1] <= 0x8F)
  }

  function Low(b: byte): int {
    b % 0x40
  }

  /** One character, or the maximal ill-formed subpart, at the front of `s`. */
  function First(s: seq<byte>): (r: Step)
    requires s != []
    ensures 1 <= r.size <= |s|
  {
    var b := s[0];
    if b < 0x80 then Char(b as char, 1)
    else if b < 0xC2 || 0xF4 < b || !IsSecond(s) then Bad(1)
    else if b < 0xE0 then Char(((b - 0xC0) * 0x40 + Low(s[1])) as char, 2)
    else if !IsTail(s, 2) then Bad(2)
    else if b < 0xF0 then Char(((b - 0xE0) * 0x1000 + Low(s[1]) * 0x40 + Low(s[2])) as char, 3)
    else if !IsTail(s, 3) then Bad(3)
    else Char(((b - 0xF0) * 0x40000 + Low(s[1]) * 0x1000 + Low(s[2]) * 0x40 + Low(s[3])) as char, 4)
  }

  /** `decode("utf-8", errors="replace")`. */
  function Decode(s: seq<byte>): string {
    if s == [] then "" else
      var r := First(s);
      [if r.Char? then r.c else REPLACEMENT] + Decode(s[r.size..])
  }

  /** `decode("utf-8")`, which raises on any ill-formed byte. */
  function DecodeStrict(s: seq<byte>): Option<string> {
    if s == [] then Some("") else
      match First(s)
      case Bad(_) => None
      case Char(c, n) =>
        match DecodeStrict(s[n..])
        case None => None
        case Some(rest) => Some([c] + rest)
  }

  function EncodeChar(c: char): (r: seq<byte>)
    ensures r != []
  {
    var n := c as int;
    if n < 0x80 then [n]
    else if n < 0x800 then [0xC0 + n / 0x40, 0x80 + n % 0x40]
    else if n < 0x10000 then [0xE0 + n / 0x1000, 0x80 + n / 0x40 % 0x40, 0x80 + n % 0x40]
    else [0xF0 + n / 0x40000, 0x80 + n / 0x1000 % 0x40, 0x80 + n / 0x40 % 0x40, 0x80 + n % 0x40]
  }

  function Encode(s: string): seq<byte> {
    if s == "" then [] else EncodeChar(s[0]) + Encode(s[1..])
  }

  /** Whole lines at the byte level: nothing, or a run of bytes that ends in 0x0A. */
  predicate WholeLines(s: seq<byte>) {
    s == [] || s[|s| - 1] == NEWLINE
  }

  lemma WholeLinesAppend(a: seq<byte>, b: seq<byte>)
    requires WholeLines(a) && WholeLines(b)
    ensures WholeLines(a + b)
  {
    if b == [] {
      Empty(a);
    }
  }

  /** 0x0A never occurs inside a multi-byte sequence, so a step that starts before one ends there. */
  lemma FirstStops(a: seq<byte>, b: seq<byte>)
    requires WholeLines(a) && a != []
    ensures First(a + b) == First(a)
  {
  }

  /** A newline is always a safe place to cut. */
  lemma {:induction false} DecodeAppend(a: seq<byte>, b: seq<byte>)
    requires WholeLines(a)
    ensures Decode(a + b) == Decode(a) + Decode(b)
    decreases |a|
  {
    if a == [] {
      Empty(b);
    } else {
      var r := First(a);
      FirstStops(a, b);
      Slices(a, b, r.size);
      DecodeAppend(a[r.size..], b);
      Associate([if r.Char? then r.c else REPLACEMENT], Decode(a[r.size..]), Decode(b));
    }
  }

  lemma Digits(n: nat)
    ensures n == n / 0x40 * 0x40 + n % 0x40
    ensures n / 0x40 == n / 0x1000 * 0x40 + n / 0x40 % 0x40
    ensures n / 0x1000 == n / 0x40000 * 0x40 + n / 0x1000 % 0x40
  {
  }

  lemma FirstOfThree(n: nat, s: seq<byte>)
    requires 0x800 <= n < 0x10000 && !(0xD800 <= n < 0xE000) && |s| >= 3
    requires s[..3] == [0xE0 + n / 0x1000, 0x80 + n / 0x40 % 0x40, 0x80 + n % 0x40]
    ensures First(s) == Char(n as char, 3)
  {
    ThreeDigits(n);
    assert s[0] == s[..3][0] && s[1] == s[..3][1] && s[2] == s[..3][2];
    StepOfThree(s);
  }

  lemma ThreeDigits(n: nat)
    requires 0x800 <= n < 0x10000 && !(0xD800 <= n < 0xE000)
    ensures var a, b, c := n / 0x1000, n / 0x40 % 0x40, n % 0x40;
            && n == a * 0x1000 + b * 0x40 + c
            && a <= 0x0F && (a == 0 ==> 0x20 <= b) && (a == 0x0D ==> b <= 0x1F)
            && (0x80 + b) % 0x40 == b && (0x80 + c) % 0x40 == c
  {
    Digits(n);
  }

  /** Three bytes in their ranges make one character. */
  lemma StepOfThree(s: seq<byte>)
    requires |s| >= 3 && 0xE0 <= s[0] <= 0xEF && IsTail(s, 1) && IsTail(s, 2)
    requires (s[0] == 0xE0 ==> 0xA0 <= s[1]) && (s[0] == 0xED ==> s[1] <= 0x9F)
    ensures var n := (s[0] - 0xE0) * 0x1000 + Low(s[1]) * 0x40 + Low(s[2]);
            (0x800 <= n < 0xD800 || 0xE000 <= n < 0x10000) && First(s) == Char(n as char, 3)
  {
  }

  lemma FirstOfFour(n: nat, s: seq<byte>)
    requires 0x10000 <= n < 0x110000 && |s| >= 4
    requires s[..4] == [0xF0 + n / 0x40000, 0x80 + n / 0x1000 % 0x40, 0x80 + n / 0x40 % 0x40, 0x80 + n % 0x40]
    ensures First(s) == Char(n as char, 4)
  {
    FourDigits(n);
    assert s[0] == s[..4][0] && s[1] == s[..4][1] && s[2] == s[..4][2] && s[3] == s[..4][3];
    StepOfFour(s);
  }

  lemma FourDigits(n: nat)
    requires 0x10000 <= n < 0x110000
    ensures var a, b, c, d := n / 0x40000, n / 0x1000 % 0x40, n / 0x40 % 0x40, n % 0x40;
            && n == a * 0x40000 + b * 0x1000 + c * 0x40 + d
            && a <= 4 && (a == 0 ==> 0x10 <= b) && (a == 4 ==> b <= 0x0F)
            && (0x80 + b) % 0x40 == b && (0x80 + c) % 0x40 == c && (0x80 + d) % 0x40 == d
  {
    Digits(n);
  }

  /** Four bytes in their ranges make one character. */
  lemma StepOfFour(s: seq<byte>)
    requires |s| >= 4 && 0xF0 <= s[0] <= 0xF4 && IsTail(s, 1) && IsTail(s, 2) && IsTail(s, 3)
    requires (s[0] == 0xF0 ==> 0x90 <= s[1]) && (s[0] == 0xF4 ==> s[1] <= 0x8F)
    ensures var n := (s[0] - 0xF0) * 0x40000 + Low(s[1]) * 0x1000 + Low(s[2]) * 0x40 + Low(s[3]);
            0x10000 <= n < 0x110000 && First(s) == Char(n as char, 4)
  {
  }

  lemma FirstOfEncoded(c: char, rest: seq<byte>)
    ensures First(EncodeChar(c) + rest) == Char(c, |EncodeChar(c)|)
  {
    var n, e := c as int, EncodeChar(c);
    assert (e + rest)[..|e|] == e;
    if 0x10000 <= n {
      FirstOfFour(n, e + rest);
    } else if 0x800 <= n {
      FirstOfThree(n, e + rest);
    } else {
      Digits(n);
    }
  }

  lemma {:induction false} DecodeEncode(s: string)
    ensures Decode(Encode(s)) == s
    ensures DecodeStrict(Encode(s)) == Some(s)
  {
    if s != "" {
      var e := EncodeChar(s[0]);
      FirstOfEncoded(s[0], Encode(s[1..]));
      DecodeEncode(s[1..]);
      hide First, EncodeChar;
      assert (e + Encode(s[1..]))[|e|..] == Encode(s[1..]);
    }
  }

  lemma {:induction false} EncodeAppend(a: string, b: string)
    ensures Encode(a + b) == Encode(a) + Encode(b)
  {
    if a == "" {
      assert a + b == b;
    } else {
      assert (a + b)[1..] == a[1..] + b;
      EncodeAppend(a[1..], b);
    }
  }

  lemma {:induction false} DecodedWholeLines(a: seq<byte>)
    requires WholeLines(a)
    ensures Decode(a) == "" || Decode(a)[|Decode(a)| - 1] == '\n'
    decreases |a|
  {
    if a != [] {
      var n := First(a).size;
      DecodedWholeLines(a[n..]);
      if n == |a| {
        assert a[|a| - 1] == NEWLINE;
        assert Decode(a[n..]) == "";
      } else {
        assert Decode(a[n..]) != "";
      }
    }
  }

  // ----- strict decoding -------------------------------------------------------------------

  lemma Digit(q: nat, r: nat)
    requires r < 0x40
    ensures (q * 0x40 + r) / 0x40 == q && (q * 0x40 + r) % 0x40 == r
  {
  }

  lemma Shifts(n: nat)
    ensures n / 0x1000 == n / 0x40 / 0x40 && n / 0x40000 == n / 0x40 / 0x40 / 0x40
  {
  }

  lemma TwoBack(a: nat, b: nat)
    requires 0xC2 <= a < 0xE0 && 0x80 <= b <= 0xBF
    ensures var n := (a - 0xC0) * 0x40 + b % 0x40; 0x80 <= n < 0x800 && 0xC0 + n / 0x40 == a && 0x80 + n % 0x40 == b
  {
  }

  lemma ThreeBack(a: nat, b: nat, c: nat)
    requires 0xE0 <= a < 0xF0 && 0x80 <= b <= 0xBF && 0x80 <= c <= 0xBF && (a == 0xE0 ==> 0xA0 <= b)
    ensures var n := (a - 0xE0) * 0x1000 + b % 0x40 * 0x40 + c % 0x40;
            && 0x800 <= n < 0x10000
            && 0xE0 + n / 0x1000 == a && 0x80 + n / 0x40 % 0x40 == b && 0x80 + n % 0x40 == c
  {
    var x, y, z := a - 0xE0, b % 0x40, c % 0x40;
    var m := x * 0x40 + y;
    Digit(m, z);
    Digit(x, y);
    Shifts(m * 0x40 + z);
  }

  lemma FourBack(a: nat, b: nat, c: nat, d: nat)
    requires 0xF0 <= a <= 0xF4 && 0x80 <= b <= 0xBF && 0x80 <= c <= 0xBF && 0x80 <= d <= 0xBF
    requires (a == 0xF0 ==> 0x90 <= b) && (a == 0xF4 ==> b <= 0x8F)
    ensures var n := (a - 0xF0) * 0x40000 + b % 0x40 * 0x1000 + c % 0x40 * 0x40 + d % 0x40;
            && 0x10000 <= n < 0x110000
            && 0xF0 + n / 0x40000 == a && 0x80 + n / 0x1000 % 0x40 == b && 0x80 + n / 0x40 % 0x40 == c
                && 0x80 + n % 0x40 == d
  {
    var x, y, z, w := a - 0xF0, b % 0x40, c % 0x40, d % 0x40;
    var m2 := x * 0x40 + y;
    var m1 := m2 * 0x40 + z;
    var n := m1 * 0x40 + w;
    Digit(m1, w);
    Digit(m2, z);
    Digit(x, y);
    Shifts(n);
  }

  /** A character that is found is encoded by the very bytes it took. */
  lemma FirstEncodes(s: seq<byte>)
    requires s != [] && First(s).Char?
    ensures EncodeChar(First(s).c) == s[..First(s).size]
  {
    var b := s[0];
    if b < 0x80 {
    } else if b < 0xE0 {
      TwoBack(b, s[1]);
    } else if b < 0xF0 {
      ThreeBack(b, s[1], s[2]);
    } else {
      FourBack(b, s[1], s[2], s[3]);
    }
  }

  /** Strict decoding succeeds for encodings only, and then both decoders agree. */
  lemma {:induction false} EncodeDecode(s: seq<byte>)
    ensures var t := DecodeStrict(s); t.Some? ==> Encode(t.value) == s && Decode(s) == t.value
    decreases |s|
  {
    if s != [] && First(s).Char? {
      var n := First(s).size;
      FirstEncodes(s);
      EncodeDecode(s[n..]);
      assert s == s[..n] + s[n..];
      hide First, EncodeChar;
    }
  }
}
