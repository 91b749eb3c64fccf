/** Reading the text out of an archived message body: a marker, a length in one of three forms, UTF-8 bytes. */
module TypedStream {
  import opened Wrappers
  import opened Seqs
  import opened Utf8

  /** "NSString", then 01 94 84 01 and '+'. */
  const MARKER: seq<byte> := [0x4E, 0x53, 0x53, 0x74, 0x72, 0x69, 0x6E, 0x67, 0x01, 0x94, 0x84, 0x01, 0x2B]

  predicate MarkerAt(data: seq<byte>, k: nat) {
    k + |MARKER| <= |data| && data[k..k + |MARKER|] == MARKER
  }

  /** `data.find(marker)`, from `k` on. */
  function FindMarker(data: seq<byte>, k: nat): (r: Option<nat>)
    ensures r.Some? ==> k <= r.value && MarkerAt(data, r.value) && forall j | k <= j < r.value :: !MarkerAt(data, j)
    ensures r.None? ==> forall j | k <= j :: !MarkerAt(data, j)
    decreases |data| - k
  {
    if k > |data| then None else if MarkerAt(data, k) then Some(k) else FindMarker(data, k + 1)
  }

  /** Where the text begins and how long it is, for a length field at `i`. */
  function Extent(data: seq<byte>, i: nat): (r: Option<(nat, nat)>)
    ensures r.Some? ==> i < r.value.0
  {
    if i >= |data| then None
    else if data[i] == 0x81 then
      if i + 3 > |data| then None else Some((i + 3, data[i + 1] as int + data[i + 2] as int * 0x100))
    else if data[i] == 0x82 then
      if i + 5 > |data| then None
      else Some((i + 5, data[i + 1] as int + data[i + 2] as int * 0x100 + data[i + 3] as int * 0x1_0000
          + data[i + 4] as int * 0x100_0000))
    else Some((i + 1, data[i]))
  }

  /** `_decode_attributed_body`; None for anything it cannot read. */
  function DecodeBody(data: seq<byte>): Option<string> {
    var at := FindMarker(data, 0);
    if at.None? then None else
      var extent := Extent(data, at.value + |MARKER|);
      if extent.None? then None else
        var (start, length) := extent.value;
        if start + length > |data| then None else DecodeStrict(data[start..start + length])
  }

  // ----- encoding ------------------------------------------------------------------------

  datatype Form = OneByte | Two | Four

  predicate Fits(form: Form, n: nat) {
    match form
    case OneByte => n < 0x100 && n != 0x81 && n != 0x82
    case Two => n < 0x1_0000
    case Four => n < 0x1_0000_0000
  }

  function LengthField(form: Form, n: nat): seq<byte>
    requires Fits(form, n)
  {
    match form
    case OneByte => [n]
    case Two => [0x81, n % 0x100, n / 0x100]
    case Four => [0x82, n % 0x100, n / 0x100 % 0x100, n / 0x1_0000 % 0x100, n / 0x100_0000]
  }

  ghost predicate NoMarker(data: seq<byte>) {
    forall k :: !MarkerAt(data, k)
  }

  /** A body as it is archived: something before the marker, the text, and something behind it. */
  function Body(before: seq<byte>, form: Form, text: string, behind: seq<byte>): seq<byte>
    requires Fits(form, |Encode(text)|)
  {
    before + (MARKER + (LengthField(form, |Encode(text)|) + (Encode(text) + behind)))
  }

  lemma FirstByteOnce(j: nat)
    ensures 0 < j < |MARKER| ==> MARKER[j] != MARKER[0]
  {
  }

  lemma Inside(before: seq<byte>, rest: seq<byte>, k: nat)
    ensures k + |MARKER| <= |before| ==> (MarkerAt(before + rest, k) <==> MarkerAt(before, k))
  {
    if k + |MARKER| <= |before| {
      assert (before + rest)[k..k + |MARKER|] == before[k..k + |MARKER|];
    }
  }

  /** The marker cannot overlap itself: its first byte occurs in it only once. */
  lemma Across(before: seq<byte>, rest: seq<byte>, k: nat)
    ensures k < |before| < k + |MARKER| ==> !MarkerAt(before + (MARKER + rest), k)
  {
    var data := before + (MARKER + rest);
    if k < |before| < k + |MARKER| <= |data| {
      var j := |before| - k;
      FirstByteOnce(j);
      assert data[k..k + |MARKER|][j] == data[|before|];
      assert data[|before|] == MARKER[0];
    }
  }

  lemma NoneEarlier(before: seq<byte>, rest: seq<byte>)
    requires NoMarker(before)
    ensures forall k | 0 <= k < |before| :: !MarkerAt(before + (MARKER + rest), k)
  {
    hide MarkerAt;
    forall k | 0 <= k < |before| ensures !MarkerAt(before + (MARKER + rest), k) {
      Inside(before, MARKER + rest, k);
      Across(before, rest, k);
    }
  }

  lemma MarkerHere(before: seq<byte>, rest: seq<byte>)
    ensures MarkerAt(before + (MARKER + rest), |before|)
  {
    Middle(before, MARKER, rest);
  }

  lemma FirstMarker(before: seq<byte>, rest: seq<byte>)
    requires NoMarker(before)
    ensures FindMarker(before + (MARKER + rest), 0) == Some(|before|)
  {
    hide *;
    NoneEarlier(before, rest);
    MarkerHere(before, rest);
  }

  lemma Middle(a: seq<byte>, b: seq<byte>, c: seq<byte>)
    ensures (a + (b + c))[|a|..|a| + |b|] == b && |a| + |b| <= |a + (b + c)|
  {
  }

  // ----- both ways -----------------------------------------------------------------------------

  lemma ExtentOf(form: Form, n: nat, before: seq<byte>, rest: seq<byte>)
    requires Fits(form, n)
    ensures Extent(before + (LengthField(form, n) + rest), |before|) == Some((|before| + |LengthField(form, n)|, n))
  {
    var f := LengthField(form, n);
    var data := before + (f + rest);
    assert forall j | 0 <= j < |f| :: data[|before| + j] == f[j];
    LittleEndian(n);
  }

  lemma Shift16(n: nat)
    ensures n / 0x1_0000 == n / 0x100 / 0x100
  {
  }

  lemma Shift24(n: nat)
    ensures n / 0x100_0000 == n / 0x100 / 0x100 / 0x100
  {
  }

  lemma LowByte(n: nat)
    ensures n == n % 0x100 + n / 0x100 * 0x100
  {
  }

  lemma LittleEndian(n: nat)
    ensures n < 0x1_0000 ==> n == n % 0x100 + n / 0x100 * 0x100
    ensures n == n % 0x100 + n / 0x100 % 0x100 * 0x100 + n / 0x1_0000 % 0x100 * 0x1_0000 + n / 0x100_0000 * 0x100_0000
  {
    Shift16(n);
    Shift24(n);
    LowByte(n);
    LowByte(n / 0x100);
    LowByte(n / 0x100 / 0x100);
  }

  lemma DecodesAt(data: seq<byte>, k: nat, start: nat, n: nat)
    requires FindMarker(data, 0) == Some(k) && Extent(data, k + |MARKER|) == Some((start, n)) && start + n <= |data|
    ensures DecodeBody(data) == DecodeStrict(data[start..start + n])
  {
    hide FindMarker, Extent, DecodeStrict;
  }

  lemma BodyIs(before: seq<byte>, form: Form, text: string, behind: seq<byte>)
    requires Fits(form, |Encode(text)|)
    ensures Body(before, form, text, behind)
            == before + (MARKER + (LengthField(form, |Encode(text)|) + (Encode(text) + behind)))
  {
  }

  lemma FourParts(a: seq<byte>, b: seq<byte>, c: seq<byte>, d: seq<byte>)
    ensures a + (b + (c + d)) == (a + b) + (c + d) == ((a + b) + c) + d
  {
  }

  /** Decoding inverts encoding, for every text, in every form its length fits, behind anything that holds no
      marker and before anything at all. */
  lemma DecodesItsEncoding(before: seq<byte>, form: Form, text: string, behind: seq<byte>)
    requires NoMarker(before) && Fits(form, |Encode(text)|)
    ensures DecodeBody(Body(before, form, text, behind)) == Some(text)
  {
    hide *;
    BodyIs(before, form, text, behind);
    var e, f := Encode(text), LengthField(form, |Encode(text)|);
    var data := Body(before, form, text, behind);
    FirstMarker(before, f + (e + behind));
    FourParts(before, MARKER, f, e + behind);
    ExtentOf(form, |e|, before + MARKER, e + behind);
    Middle((before + MARKER) + f, e, behind);
    DecodesAt(data, |before|, |before| + |MARKER| + |f|, |e|);
    DecodeEncode(text);
  }

  // ----- and nothing else decodes -------------------------------------------------------------------

  lemma EncodedTwo(s: seq<byte>)
    requires s != [] && First(s).Char? && First(s).size == 2
    ensures EncodeChar(First(s).c) == s[..2]
  {
    var n := (s[0] - 0xC0) * 0x40 + Low(s[1]);
    assert n / 0x40 == s[0] - 0xC0 && n % 0x40 == s[1] - 0x80;
  }

  lemma DigitsOfThree(a: nat, b: nat, c: nat)
    requires b < 0x40 && c < 0x40
    ensures var n := a * 0x1000 + b * 0x40 + c; n / 0x1000 == a && n / 0x40 % 0x40 == b && n % 0x40 == c
  {
    var n := a * 0x1000 + b * 0x40 + c;
    assert n / 0x40 == a * 0x40 + b;
  }

  lemma DigitsOfFour(a: nat, b: nat, c: nat, d: nat)
    requires b < 0x40 && c < 0x40 && d < 0x40
    ensures var n := a * 0x40000 + b * 0x1000 + c * 0x40 + d;
            n / 0x40000 == a && n / 0x1000 % 0x40 == b && n / 0x40 % 0x40 == c && n % 0x40 == d
  {
    var n := a * 0x40000 + b * 0x1000 + c * 0x40 + d;
    assert n / 0x40 == a * 0x1000 + b * 0x40 + c;
    assert n / 0x1000 == a * 0x40 + b;
  }

  lemma FirstThree(s: seq<byte>)
    requires s != [] && First(s).Char? && First(s).size == 3
    ensures 0xE0 <= s[0] < 0xF0 && IsTail(s, 1) && IsTail(s, 2)
    ensures var n := (s[0] as int - 0xE0) * 0x1000 + (s[1] as int - 0x80) * 0x40 + (s[2] as int - 0x80);
            0x800 <= n < 0x10000 && !(0xD800 <= n < 0xE000) && First(s).c == n as char
  {
    assert Low(s[1]) == s[1] - 0x80 && Low(s[2]) == s[2] - 0x80;
  }

  lemma ThreeDigits(a: nat, b: nat, c: nat)
    requires a < 0x10 && b < 0x40 && c < 0x40
    ensures var n := a * 0x1000 + b * 0x40 + c;
            0x800 <= n < 0x10000 && !(0xD800 <= n < 0xE000) ==> EncodeChar(n as char) == [0xE0 + a, 0x80 + b, 0x80 + c]
  {
    DigitsOfThree(a, b, c);
  }

  lemma EncodedThree(s: seq<byte>)
    requires s != [] && First(s).Char? && First(s).size == 3
    ensures EncodeChar(First(s).c) == s[..3]
  {
    hide First, EncodeChar;
    FirstThree(s);
    ThreeDigits(s[0] as int - 0xE0, s[1] as int - 0x80, s[2] as int - 0x80);
    assert s[..3] == [s[0], s[1], s[2]];
  }

  lemma FirstFour(s: seq<byte>)
    requires s != [] && First(s).Char? && First(s).size == 4
    ensures 0xF0 <= s[0] <= 0xF4 && IsTail(s, 1) && IsTail(s, 2) && IsTail(s, 3)
    ensures var n := (s[0] as int - 0xF0) * 0x40000 + (s[1] as int - 0x80) * 0x1000 + (s[2] as int - 0x80) * 0x40
            + (s[3] as int - 0x80);
            0x10000 <= n < 0x110000 && First(s).c == n as char
  {
    assert Low(s[1]) == s[1] - 0x80 && Low(s[2]) == s[2] - 0x80 && Low(s[3]) == s[3] - 0x80;
  }

  lemma FourDigits(a: nat, b: nat, c: nat, d: nat)
    requires a < 5 && b < 0x40 && c < 0x40 && d < 0x40
    ensures var n := a * 0x40000 + b * 0x1000 + c * 0x40 + d;
            0x10000 <= n < 0x110000 ==> EncodeChar(n as char) == [0xF0 + a, 0x80 + b, 0x80 + c, 0x80 + d]
  {
    DigitsOfFour(a, b, c, d);
  }

  lemma EncodedFour(s: seq<byte>)
    requires s != [] && First(s).Char? && First(s).size == 4
    ensures EncodeChar(First(s).c) == s[..4]
  {
    hide First, EncodeChar;
    FirstFour(s);
    FourDigits(s[0] as int - 0xF0, s[1] as int - 0x80, s[2] as int - 0x80, s[3] as int - 0x80);
    assert s[..4] == [s[0], s[1], s[2], s[3]];
  }

  lemma FirstIsEncoded(s: seq<byte>)
    requires s != [] && First(s).Char?
    ensures EncodeChar(First(s).c) == s[..First(s).size]
  {
    if First(s).size == 2 {
      EncodedTwo(s);
    } else if First(s).size == 3 {
      EncodedThree(s);
    } else if First(s).size == 4 {
      EncodedFour(s);
    }
  }

  /** Strict decoding reads only the bytes that encoding its answer gives. */
  lemma {:induction false} StrictIsEncoded(s: seq<byte>)
    requires DecodeStrict(s).Some?
    ensures Encode(DecodeStrict(s).value) == s
  {
    StrictStep(s);
    hide *;
    if s == [] {
      NothingEncoded();
    } else {
      var r := First(s);
      FirstIsEncoded(s);
      StrictIsEncoded(s[r.size..]);
      EncodeCons(r.c, DecodeStrict(s[r.size..]).value);
      Cut(s, 0, r.size, |s|);
      Whole(s);
    }
  }

  lemma StrictStep(s: seq<byte>)
    requires DecodeStrict(s).Some?
    ensures if s == [] then DecodeStrict(s).value == ""
            else First(s).Char? && DecodeStrict(s[First(s).size..]).Some?
                 && DecodeStrict(s).value == [First(s).c] + DecodeStrict(s[First(s).size..]).value
  {
    hide First;
  }

  lemma NothingEncoded()
    ensures Encode("") == []
  {
  }

  lemma EncodeCons(c: char, rest: string)
    ensures Encode([c] + rest) == EncodeChar(c) + Encode(rest)
  {
    assert ([c] + rest)[1..] == rest;
  }

  lemma FieldAt(data: seq<byte>, i: nat)
    requires Extent(data, i).Some?
    ensures var (start, n) := Extent(data, i).value;
            i <= start <= |data| && exists form :: Fits(form, n) && data[i..start] == LengthField(form, n)
  {
    var (start, n) := Extent(data, i).value;
    if data[i] == 0x81 {
      TwoBytes(data[i + 1], data[i + 2]);
      assert Fits(Two, n) && data[i..start] == LengthField(Two, n);
    } else if data[i] == 0x82 {
      FourBytes(data[i + 1], data[i + 2], data[i + 3], data[i + 4]);
      assert Fits(Four, n) && data[i..start] == LengthField(Four, n);
    } else {
      assert Fits(OneByte, n) && data[i..start] == LengthField(OneByte, n);
    }
  }

  lemma TwoBytes(a: byte, b: byte)
    ensures var n := a as int + b as int * 0x100; n < 0x1_0000 && n % 0x100 == a && n / 0x100 == b
  {
  }

  lemma FourBytes(a: byte, b: byte, c: byte, d: byte)
    ensures var n := a as int + b as int * 0x100 + c as int * 0x1_0000 + d as int * 0x100_0000;
            n < 0x1_0000_0000 && n % 0x100 == a && n / 0x100 % 0x100 == b && n / 0x1_0000 % 0x100 == c
                && n / 0x100_0000 == d
  {
    var n := a as int + b as int * 0x100 + c as int * 0x1_0000 + d as int * 0x100_0000;
    assert n / 0x100 == b as int + c as int * 0x100 + d as int * 0x1_0000;
    assert n / 0x1_0000 == c as int + d as int * 0x100;
  }

  /** `data` is a body that holds `text` behind its first marker. */
  predicate Holds(data: seq<byte>, before: seq<byte>, form: Form, text: string, behind: seq<byte>) {
    Fits(form, |Encode(text)|) && data == Body(before, form, text, behind) && FindMarker(data, 0) == Some(|before|)
  }

  lemma HoldsText(data: seq<byte>, k: nat, start: nat, n: nat, form: Form, text: string)
    requires FindMarker(data, 0) == Some(k) && k + |MARKER| <= start && start + n <= |data|
             && data[k..k + |MARKER|] == MARKER
    requires Fits(form, n) && data[k + |MARKER|..start] == LengthField(form, n)
             && Encode(text) == data[start..start + n]
    ensures Holds(data, data[..k], form, text, data[start + n..])
  {
    hide *;
    Pieces(data, k, k + |MARKER|, start, start + n);
    BodyIs(data[..k], form, text, data[start + n..]);
    HoldsIf(data, data[..k], form, text, data[start + n..]);
  }

  lemma HoldsIf(data: seq<byte>, before: seq<byte>, form: Form, text: string, behind: seq<byte>)
    requires Fits(form, |Encode(text)|) && data == Body(before, form, text, behind)
             && FindMarker(data, 0) == Some(|before|)
    ensures Holds(data, before, form, text, behind)
  {
    hide FindMarker, Encode, LengthField, Fits, Body;
  }

  /** What decodes is an encoding: a text comes back only from bytes that hold it behind the first marker, with its
      length in one of the three forms. */
  lemma DecodesOnlyEncodings(data: seq<byte>, text: string)
    requires DecodeBody(data) == Some(text)
    ensures exists before, form, behind :: Holds(data, before, form, text, behind)
  {
    hide *;
    Decoded(data);
    var k := FindMarker(data, 0).value;
    var (start, n) := Extent(data, k + |MARKER|).value;
    FieldAt(data, k + |MARKER|);
    var form :| Fits(form, n) && data[k + |MARKER|..start] == LengthField(form, n);
    StrictIsEncoded(data[start..start + n]);
    HoldsText(data, k, start, n, form, text);
  }

  lemma Decoded(data: seq<byte>)
    requires DecodeBody(data).Some?
    ensures FindMarker(data, 0).Some? && Extent(data, FindMarker(data, 0).value + |MARKER|).Some?
    ensures var k := FindMarker(data, 0).value;
            var (start, n) := Extent(data, k + |MARKER|).value;
            start + n <= |data| && DecodeStrict(data[start..start + n]) == DecodeBody(data)
                && data[k..k + |MARKER|] == MARKER
  {
    hide Extent, DecodeStrict, FindMarker;
  }

  lemma Pieces(s: seq<byte>, a: nat, b: nat, c: nat, d: nat)
    requires a <= b <= c <= d <= |s|
    ensures s == s[..a] + (s[a..b] + (s[b..c] + (s[c..d] + s[d..])))
  {
  }
}
