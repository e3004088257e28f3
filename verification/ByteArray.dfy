/**
 The printers of a byte array: hexadecimal with separators, and three kinds of escaped text. What each
 prints can be decoded again, and the conditions under which it cannot are stated too.
 */
module ByteArray {
  import opened Basics

  // ---------- Digits ----------

  /** One digit of a base up to sixteen. */
  function Digit(v: nat, upper: bool): char
    requires v < 16
  {
    if v < 10 then ('0' as int + v) as char
    else if upper then ('A' as int + v - 10) as char
    else ('a' as int + v - 10) as char
  }

  function DigitValue(c: char): Option<nat> {
    if '0' <= c <= '9' then Some(c as int - '0' as int)
    else if 'A' <= c <= 'F' then Some(c as int - 'A' as int + 10)
    else if 'a' <= c <= 'f' then Some(c as int - 'a' as int + 10)
    else None
  }

  predicate IsHexDigit(c: char) {
    DigitValue(c).Some?
  }

  lemma DigitIsRead(v: nat, upper: bool)
    requires v < 16
    ensures DigitValue(Digit(v, upper)) == Some(v)
  {
  }

  /** Two digits, filled with a zero. */
  function ByteToHex(b: byte, upper: bool): (s: string)
    ensures |s| == 2
  {
    [Digit(b / 16, upper), Digit(b % 16, upper)]
  }

  /** Three digits, filled with zeros. */
  function ByteToOcto(b: byte): (s: string)
    ensures |s| == 3
  {
    [Digit(b / 64, true), Digit(b / 8 % 8, true), Digit(b % 8, true)]
  }

  /** The value of a string of digits of one base; none when a character is not such a digit. */
  function ValueOf(s: string, base: nat): Option<nat>
    requires base <= 16
    decreases |s|
  {
    if s == "" then Some(0)
    else
      var high, low := ValueOf(s[..|s| - 1], base), DigitValue(s[|s| - 1]);
      if high.None? || low.None? || low.value >= base then None
      else Some(high.value * base + low.value)
  }

  lemma ValueSnoc(s: string, v: nat, base: nat, upper: bool)
    requires v < base <= 16 && ValueOf(s, base).Some?
    ensures ValueOf(s + [Digit(v, upper)], base) == Some(ValueOf(s, base).value * base + v)
  {
    DigitIsRead(v, upper);
    hide Digit, DigitValue;
    assert (s + [Digit(v, upper)])[..|s|] == s;
  }

  lemma HexIsRead(b: byte, upper: bool)
    ensures ValueOf(ByteToHex(b, upper), 16) == Some(b)
  {
    ValueSnoc("", b / 16, 16, upper);
    ValueSnoc("" + [Digit(b / 16, upper)], b % 16, 16, upper);
    assert ByteToHex(b, upper) == "" + [Digit(b / 16, upper)] + [Digit(b % 16, upper)];
    hide Digit;
  }

  lemma OctoIsRead(b: byte)
    ensures ValueOf(ByteToOcto(b), 8) == Some(b)
  {
    assert ValueOf("", 8) == Some(0);
    hide Digit, ValueOf;
    var high, middle, low := b / 64, b / 8 % 8, b % 8;
    OctalPlaces(b);
    ValueSnoc("", high, 8, true);
    ValueSnoc("" + [Digit(high, true)], middle, 8, true);
    ValueSnoc("" + [Digit(high, true)] + [Digit(middle, true)], low, 8, true);
    assert ByteToOcto(b) == "" + [Digit(high, true)] + [Digit(middle, true)] + [Digit(low, true)];
  }

  lemma OctalPlaces(b: byte)
    ensures (0 * 8 + b / 64) * 8 + b / 8 % 8 == b / 8
    ensures ((0 * 8 + b / 64) * 8 + b / 8 % 8) * 8 + b % 8 == b
  {
    assert b / 64 == b / 8 / 8;
  }

  /** The digits of a byte are all of one case. */
  lemma HexIsOneCase(b: byte, upper: bool)
    ensures forall c :: c in ByteToHex(b, upper) ==>
      '0' <= c <= '9' || (if upper then 'A' <= c <= 'F' else 'a' <= c <= 'f')
  {
  }

  // ---------- Hexadecimal ----------

  /** What stands in front of the byte with this index. */
  function Gap(n: nat, separator: string, space: nat): string
    requires space > 0 || n == 0
  {
    if n > 0 && n % space == 0 then separator else ""
  }

  /** The bytes as digits, with the separator in front of every byte whose index is a positive multiple
      of `space`. */
  function Hex(bytes: seq<byte>, upper: bool, separator: string, space: nat): string
    requires space > 0 || |bytes| <= 1
  {
    if bytes == [] then ""
    else
      var n := |bytes| - 1;
      Hex(bytes[..n], upper, separator, space) + Gap(n, separator, space) + ByteToHex(bytes[n], upper)
  }

  lemma DivSucc(n: nat, space: nat)
    requires n > 0 && space > 0
    ensures n / space == (n - 1) / space + (if n % space == 0 then 1 else 0)
  {
    var q, r := (n - 1) / space, (n - 1) % space;
    assert n - 1 == space * q + r;
    if r + 1 == space {
      assert space * (q + 1) == space * q + space;
      DivIs(n, space, q + 1, 0);
    } else {
      DivIs(n, space, q, r + 1);
    }
  }

  lemma DivIs(n: nat, d: nat, q: nat, r: nat)
    requires d > 0 && n == d * q + r && r < d
    ensures n / d == q && n % d == r
  {
    var q', r' := n / d, n % d;
    assert n == d * q' + r';
    assert d * (q' - q) == r - r' by {
      assert d * (q' - q) == d * q' - d * q;
    }
    NonZeroMultiple(d, q' - q);
  }

  lemma NonZeroMultiple(d: int, k: int)
    requires d >= 0
    ensures k >= 1 ==> d * k >= d
    ensures k <= -1 ==> d * k <= 0 - d
  {
    if k >= 1 {
      assert d * (k - 1) == d * k - d;
    } else if k <= -1 {
      assert d * (k + 1) == d * k + d;
    }
  }

  /** How long the text is. */
  lemma {:induction false} HexLength(bytes: seq<byte>, upper: bool, separator: string, space: nat)
    requires space > 0
    ensures |Hex(bytes, upper, separator, space)| ==
      (if bytes == [] then 0 else 2 * |bytes| + |separator| * ((|bytes| - 1) / space))
  {
    if bytes != [] {
      var n := |bytes| - 1;
      HexLength(bytes[..n], upper, separator, space);
      hide ByteToHex;
      if n > 0 {
        GapLength(n, separator, space);
        hide Gap;
      } else {
        assert n / space == 0;
      }
    }
  }

  lemma GapLength(n: nat, separator: string, space: nat)
    requires n > 0 && space > 0
    ensures |separator| * (n / space) == |separator| * ((n - 1) / space) + |Gap(n, separator, space)|
  {
    DivSucc(n, space);
    var q := (n - 1) / space;
    assert |separator| * (q + 1) == |separator| * q + |separator|;
  }

  lemma {:induction false} HexOfPrefix(bytes: seq<byte>, n: nat, upper: bool, separator: string, space: nat)
    requires space > 0 && n <= |bytes|
    ensures Hex(bytes[..n], upper, separator, space) <= Hex(bytes, upper, separator, space)
    decreases |bytes|
  {
    if n == |bytes| {
      assert bytes[..n] == bytes;
    } else {
      var m := |bytes| - 1;
      HexOfPrefix(bytes[..m], n, upper, separator, space);
      assert bytes[..m][..n] == bytes[..n];
    }
  }

  /** Where everything stands: the digits of each byte are as far in as two for each byte before it and the
      separators up to it, and the separator stands right in front of every byte whose index is a
      positive multiple of `space`. */
  lemma HexAt(bytes: seq<byte>, i: nat, upper: bool, separator: string, space: nat)
    requires space > 0 && i < |bytes|
    ensures var text, at := Hex(bytes, upper, separator, space), 2 * i + |separator| * (i / space);
      && at + 2 <= |text| && text[at..at + 2] == ByteToHex(bytes[i], upper)
      && (i > 0 && i % space == 0 ==> |separator| <= at && text[at - |separator|..at] == separator)
  {
    hide Hex, ByteToHex;
    var front := Hex(bytes[..i], upper, separator, space);
    var gap, digits := Gap(i, separator, space), ByteToHex(bytes[i], upper);
    HexNext(bytes, i, upper, separator, space);
    HexOfPrefix(bytes, i + 1, upper, separator, space);
    FrontLength(bytes, i, upper, separator, space);
    Inside(front, gap, digits, Hex(bytes, upper, separator, space));
  }

  lemma HexNext(bytes: seq<byte>, i: nat, upper: bool, separator: string, space: nat)
    requires space > 0 && i < |bytes|
    ensures Hex(bytes[..i + 1], upper, separator, space) ==
      Hex(bytes[..i], upper, separator, space) + Gap(i, separator, space) + ByteToHex(bytes[i], upper)
  {
    assert bytes[..i + 1][..i] == bytes[..i];
  }

  lemma FrontLength(bytes: seq<byte>, i: nat, upper: bool, separator: string, space: nat)
    requires space > 0 && i < |bytes|
    ensures |Hex(bytes[..i], upper, separator, space)| + |Gap(i, separator, space)| ==
      2 * i + |separator| * (i / space)
  {
    hide Hex;
    HexLength(bytes[..i], upper, separator, space);
    if i > 0 {
      GapLength(i, separator, space);
    } else {
      assert i / space == 0;
    }
  }

  lemma Inside(a: string, b: string, c: string, text: string)
    requires a + b + c <= text
    ensures var at := |a| + |b|;
      at + |c| <= |text| && text[at..at + |c|] == c && text[at - |b|..at] == b
  {
    assert forall i :: 0 <= i < |a + b + c| ==> text[i] == (a + b + c)[i];
  }

  /** Only the digits of a text. */
  function Digits(s: string): string {
    if s == "" then ""
    else Digits(s[..|s| - 1]) + (if IsHexDigit(s[|s| - 1]) then [s[|s| - 1]] else "")
  }

  /** The digits in pairs; none when one is left over. */
  function Pairs(digits: string): Option<seq<byte>>
    decreases |digits|
  {
    if digits == "" then Some([])
    else if |digits| == 1 then None
    else
      var n := |digits| - 2;
      var front, last := Pairs(digits[..n]), ValueOf(digits[n..], 16);
      if front.None? || last.None? || last.value >= 256 then None else Some(front.value + [last.value])
  }

  function FromHex(s: string): Option<seq<byte>> {
    Pairs(Digits(s))
  }

  lemma {:induction false} DigitsConcat(a: string, b: string)
    ensures Digits(a + b) == Digits(a) + Digits(b)
    decreases |b|
  {
    if b == "" {
      assert a + b == a;
    } else {
      var n := |b| - 1;
      DigitsConcat(a, b[..n]);
      assert (a + b)[..|a + b| - 1] == a + b[..n];
    }
  }

  lemma DigitsOfByte(b: byte, upper: bool)
    ensures Digits(ByteToHex(b, upper)) == ByteToHex(b, upper)
  {
    var s := ByteToHex(b, upper);
    DigitIsRead(b / 16, upper);
    DigitIsRead(b % 16, upper);
    assert s[..1] == [s[0]] && s[..1][..0] == "";
    hide Digit, DigitValue;
    assert Digits(s[..1]) == s[..1];
  }

  lemma PairsSnoc(digits: string, b: byte, upper: bool)
    requires Pairs(digits).Some?
    ensures Pairs(digits + ByteToHex(b, upper)) == Some(Pairs(digits).value + [b])
  {
    var last := ByteToHex(b, upper);
    var d := digits + last;
    HexIsRead(b, upper);
    hide ByteToHex, ValueOf;
    assert d[..|d| - 2] == digits && d[|d| - 2..] == last;
  }

  /** Dropping what is not a digit and pairing the rest gives the bytes back, in either case, for every
      spacing and every separator without a hexadecimal digit in it. */
  lemma {:induction false} HexRoundTrip(bytes: seq<byte>, upper: bool, separator: string, space: nat)
    requires space > 0 || |bytes| <= 1
    requires Digits(separator) == ""
    ensures FromHex(Hex(bytes, upper, separator, space)) == Some(bytes)
  {
    if bytes != [] {
      var n := |bytes| - 1;
      var front := Hex(bytes[..n], upper, separator, space);
      var gap, last := Gap(n, separator, space), ByteToHex(bytes[n], upper);
      HexRoundTrip(bytes[..n], upper, separator, space);
      assert Hex(bytes, upper, separator, space) == front + gap + last;
      assert Digits(gap) == "";
      assert bytes[..n] + [bytes[n]] == bytes;
      hide Digits, ByteToHex, Pairs, Hex, Gap;
      DigitsConcat(front + gap, last);
      DigitsConcat(front, gap);
      DigitsOfByte(bytes[n], upper);
      PairsSnoc(Digits(front), bytes[n], upper);
      assert Digits(front) + "" == Digits(front);
    }
  }

  // ---------- Escaped text ----------

  datatype Format = Printf | HexFormat | OctoFormat

  /** Printable in the C locale, and not the backslash: copied as it is. */
  predicate IsRaw(b: int) {
    0x20 <= b <= 0x7E && b != 0x5C
  }

  /** What stands between the delimiters for a byte that is not copied. */
  function Body(b: byte, format: Format): string {
    match format
    case Printf =>
      if b == 0x5C then "\\"
      else if b == 0x0A || b == 0x0D then "n"
      else if b == 0x09 then "t"
      else if b == 0x0B then "v"
      else "x" + ByteToHex(b, true)
    case HexFormat => "x" + ByteToHex(b, true)
    case OctoFormat => ByteToOcto(b)
  }

  function EscapeByte(b: byte, format: Format, begin: string, end: string): string {
    if IsRaw(b) then [b as char] else begin + Body(b, format) + end
  }

  function Escape(bytes: seq<byte>, format: Format, begin: string, end: string): string {
    if bytes == [] then ""
    else EscapeByte(bytes[0], format, begin, end) + Escape(bytes[1..], format, begin, end)
  }

  /** What can be told of a byte from its escape: a carriage return looks like a line feed in the first
      format. */
  function Seen(b: byte, format: Format): byte {
    if format == Printf && b == 0x0D then 0x0A else b
  }

  function SeenAll(bytes: seq<byte>, format: Format): (r: seq<byte>)
    ensures |r| == |bytes|
  {
    seq(|bytes|, i requires 0 <= i < |bytes| => Seen(bytes[i], format))
  }

  /** A byte and the text that follows it. */
  datatype Decoded = Decoded(b: byte, rest: string)

  function ReadDigits(s: string, width: nat, base: nat): Option<Decoded>
    requires base <= 16
  {
    if |s| < width then None
    else
      var v := ValueOf(s[..width], base);
      if v.None? || v.value >= 256 then None else Some(Decoded(v.value, s[width..]))
  }

  /** Takes a body off the front. */
  function ReadBody(s: string, format: Format): Option<Decoded> {
    if format == OctoFormat then ReadDigits(s, 3, 8)
    else if s == "" then None
    else if s[0] == 'x' then ReadDigits(s[1..], 2, 16)
    else if format == HexFormat then None
    else if s[0] == '\\' then Some(Decoded(0x5C, s[1..]))
    else if s[0] == 'n' then Some(Decoded(0x0A, s[1..]))
    else if s[0] == 't' then Some(Decoded(0x09, s[1..]))
    else if s[0] == 'v' then Some(Decoded(0x0B, s[1..]))
    else None
  }

  /** Takes one escaped byte off the front, knowing the delimiters. */
  function ReadByte(s: string, format: Format, begin: string, end: string): Option<Decoded> {
    if s == "" then None
    else if IsRaw(s[0] as int) then Some(Decoded(s[0] as int, s[1..]))
    else if !(begin <= s) then None
    else
      var d := ReadBody(s[|begin|..], format);
      if d.None? || !(end <= d.value.rest) then None
      else Some(Decoded(d.value.b, d.value.rest[|end|..]))
  }

  function Unescape(s: string, format: Format, begin: string, end: string): Option<seq<byte>>
    decreases |s|
  {
    if s == "" then Some([])
    else
      var d := ReadByte(s, format, begin, end);
      if d.None? || |d.value.rest| >= |s| then None
      else
        var more := Unescape(d.value.rest, format, begin, end);
        if more.None? then None else Some([d.value.b] + more.value)
  }

  lemma DigitsAreTaken(digits: string, base: nat, b: byte, rest: string)
    requires base <= 16 && ValueOf(digits, base) == Some(b)
    ensures ReadDigits(digits + rest, |digits|, base) == Some(Decoded(b, rest))
  {
    assert (digits + rest)[..|digits|] == digits && (digits + rest)[|digits|..] == rest;
    hide ValueOf;
  }

  lemma BodyIsRead(b: byte, format: Format, rest: string)
    requires !IsRaw(b)
    ensures ReadBody(Body(b, format) + rest, format) == Some(Decoded(Seen(b, format), rest))
  {
    HexIsRead(b, true);
    OctoIsRead(b);
    hide ByteToHex, ByteToOcto, ValueOf;
    var body, hex := Body(b, format), ByteToHex(b, true);
    DigitsAreTaken(hex, 16, b, rest);
    DigitsAreTaken(ByteToOcto(b), 8, b, rest);
    hide ReadDigits;
    if |body| == 1 {
      assert (body + rest)[0] == body[0] && (body + rest)[1..] == rest;
    } else if format != OctoFormat {
      assert body == "x" + hex;
      assert (body + rest)[1..] == hex + rest;
    }
  }

  /** A first delimiter that starts with a character that is never copied marks the escapes. */
  predicate Marks(begin: string) {
    begin != "" && !IsRaw(begin[0] as int)
  }

  lemma ByteIsRead(b: byte, format: Format, begin: string, end: string, rest: string)
    requires Marks(begin)
    ensures ReadByte(EscapeByte(b, format, begin, end) + rest, format, begin, end)
      == Some(Decoded(Seen(b, format), rest))
  {
    hide Body, ReadBody;
    var s := EscapeByte(b, format, begin, end) + rest;
    if IsRaw(b) {
      assert s[1..] == rest;
    } else {
      var tail := Body(b, format) + (end + rest);
      BodyIsRead(b, format, end + rest);
      assert s == begin + tail;
      hide EscapeByte;
      assert s[|begin|..] == tail && s[0] == begin[0];
      assert (end + rest)[|end|..] == rest;
    }
  }

  /** Decoding gives the bytes back, up to what the format cannot tell apart. */
  lemma {:induction false} EscapeRoundTrip(bytes: seq<byte>, format: Format, begin: string, end: string)
    requires Marks(begin)
    ensures Unescape(Escape(bytes, format, begin, end), format, begin, end) == Some(SeenAll(bytes, format))
    decreases |bytes|
  {
    if bytes == [] {
      assert SeenAll(bytes, format) == [];
    } else {
      var b, more := bytes[0], Escape(bytes[1..], format, begin, end);
      ByteIsRead(b, format, begin, end, more);
      EscapeRoundTrip(bytes[1..], format, begin, end);
      assert EscapeByte(b, format, begin, end) != "";
      assert SeenAll(bytes, format) == [Seen(b, format)] + SeenAll(bytes[1..], format);
      hide ReadByte, EscapeByte, Seen;
    }
  }

  /** What the format cannot tell apart is printed alike. */
  lemma {:induction false} SeenPrintsAlike(a: seq<byte>, b: seq<byte>, format: Format, begin: string, end: string)
    requires SeenAll(a, format) == SeenAll(b, format)
    ensures Escape(a, format, begin, end) == Escape(b, format, begin, end)
    decreases |a|
  {
    assert |a| == |SeenAll(b, format)| == |b|;
    if a != [] {
      assert SeenAll(a, format)[0] == SeenAll(b, format)[0];
      assert SeenAll(a[1..], format) == SeenAll(a, format)[1..] == SeenAll(b[1..], format);
      SeenPrintsAlike(a[1..], b[1..], format, begin, end);
    }
  }

  /** Two arrays print alike exactly when they are equal, but for carriage returns and line feeds in
      the first format. */
  lemma PrintsAlikeIff(a: seq<byte>, b: seq<byte>, format: Format, begin: string, end: string)
    requires Marks(begin)
    ensures Escape(a, format, begin, end) == Escape(b, format, begin, end)
      <==> SeenAll(a, format) == SeenAll(b, format)
    ensures format != Printf ==> (SeenAll(a, format) == SeenAll(b, format) <==> a == b)
  {
    EscapeRoundTrip(a, format, begin, end);
    EscapeRoundTrip(b, format, begin, end);
    if SeenAll(a, format) == SeenAll(b, format) {
      SeenPrintsAlike(a, b, format, begin, end);
    }
    if format != Printf {
      assert SeenAll(a, format) == a && SeenAll(b, format) == b;
    }
    hide Escape, Unescape, SeenAll;
  }

  /** The default delimiters mark. */
  lemma DefaultDelimitersMark()
    ensures Marks("\\")
  {
    assert "\\"[0] == '\\' == 0x5C as char;
  }

  predicate AllRaw(s: string) {
    forall i :: 0 <= i < |s| ==> IsRaw(s[i] as int)
  }

  /** The characters of a text as bytes. */
  function AsBytes(s: string): seq<byte>
    requires AllRaw(s)
  {
    seq(|s|, i requires 0 <= i < |s| => s[i] as int)
  }

  lemma {:induction false} RawIsCopied(s: string, format: Format, begin: string, end: string)
    requires AllRaw(s)
    ensures Escape(AsBytes(s), format, begin, end) == s
    decreases |s|
  {
    if s != "" {
      RawIsCopied(s[1..], format, begin, end);
      assert AsBytes(s)[1..] == AsBytes(s[1..]);
      assert [s[0]] + s[1..] == s;
    }
  }

  /** With delimiters made of characters that are copied, empty ones among them, an escape can be
      mistaken for a text that spells it. */
  lemma RawDelimitersAreAmbiguous(format: Format, begin: string, end: string)
    requires AllRaw(begin) && AllRaw(end)
    ensures exists a: seq<byte>, b: seq<byte> ::
      SeenAll(a, format) != SeenAll(b, format)
      && Escape(a, format, begin, end) == Escape(b, format, begin, end)
  {
    var a: seq<byte> := [0];
    var s := begin + Body(0, format) + end;
    assert Digit(0, true) == '0';
    assert AllRaw(Body(0, format));
    assert AllRaw(s);
    var b := AsBytes(s);
    RawIsCopied(s, format, begin, end);
    assert a[1..] == [];
    assert Escape(a, format, begin, end) == s + "" == s;
    assert |SeenAll(b, format)| > 1;
  }

  lemma EscapeStep(bytes: seq<byte>, i: nat, str: string, format: Format, begin: string, end: string)
    requires i < |bytes|
    ensures str + Escape(bytes[i..], format, begin, end)
      == str + EscapeByte(bytes[i], format, begin, end) + Escape(bytes[i + 1..], format, begin, end)
  {
    assert bytes[i..][1..] == bytes[i + 1..];
  }

  // ---------- What is copied ----------

  function Plain(bytes: seq<byte>): string {
    seq(|bytes|, i requires 0 <= i < |bytes| => bytes[i] as char)
  }

  /** Printable, and not the backslash. */
  predicate IsPlain(c: char) {
    ' ' <= c <= '~' && c != '\\'
  }

  /** A byte whose escape is itself. */
  predicate IsOwnEscape(b: byte, format: Format, begin: string, end: string) {
    IsPlain(b as char) || (b as char == '\\' && format == Printf && begin == "" && end == "")
  }

  lemma OwnEscapeIff(b: byte, format: Format, begin: string, end: string)
    ensures EscapeByte(b, format, begin, end) == [b as char] <==> IsOwnEscape(b, format, begin, end)
    ensures EscapeByte(b, format, begin, end) != ""
  {
    hide ByteToHex, ByteToOcto;
    var e := EscapeByte(b, format, begin, end);
    if !IsRaw(b) {
      var body := Body(b, format);
      assert |e| == |begin| + |body| + |end|;
      if |e| == 1 {
        assert begin == "" && end == "" && e == body;
        assert format == Printf;
        assert body[0] == (if b == 0x5C then '\\' else if b == 0x09 then 't' else if b == 0x0B then 'v' else 'n');
      }
      assert 0x5C as char == '\\';
    }
  }

  lemma {:induction false} EscapeIsNoShorter(bytes: seq<byte>, format: Format, begin: string, end: string)
    ensures |Escape(bytes, format, begin, end)| >= |bytes|
  {
    if bytes != [] {
      OwnEscapeIff(bytes[0], format, begin, end);
      EscapeIsNoShorter(bytes[1..], format, begin, end);
    }
  }

  /** An array is printed as it is exactly when all its bytes are printable and none is a backslash; only
      without delimiters a backslash, too, is printed as it is, in the first format. */
  lemma {:induction false} UnchangedIff(bytes: seq<byte>, format: Format, begin: string, end: string)
    ensures Escape(bytes, format, begin, end) == Plain(bytes) <==>
      forall i :: 0 <= i < |bytes| ==> IsOwnEscape(bytes[i], format, begin, end)
    decreases |bytes|
  {
    if bytes != [] {
      var e, more := EscapeByte(bytes[0], format, begin, end), Escape(bytes[1..], format, begin, end);
      OwnEscapeIff(bytes[0], format, begin, end);
      EscapeIsNoShorter(bytes[1..], format, begin, end);
      UnchangedIff(bytes[1..], format, begin, end);
      hide EscapeByte, IsOwnEscape;
      assert Plain(bytes) == [bytes[0] as char] + Plain(bytes[1..]);
      assert e + more == Plain(bytes) ==> |e| == 1 && e[0] == bytes[0] as char && more == Plain(bytes[1..]) by {
        assert (e + more)[0] == e[0] && (e + more)[|e|..] == more;
      }
      assert forall i :: 0 < i < |bytes| ==> bytes[i] == bytes[1..][i - 1];
    }
  }

  /** Whatever is printed is printable, if the delimiters are, and its hexadecimal digits are upper-case:
      `n`, `t`, `v` and `x` are the only lower-case letters between delimiters. */
  lemma BodyIsPrintable(b: byte, format: Format)
    requires !IsRaw(b)
    ensures Body(b, format) != ""
    ensures forall c :: c in Body(b, format) ==>
      '0' <= c <= '9' || 'A' <= c <= 'F' || c == '\\' || c == 'n' || c == 't' || c == 'v' || c == 'x'
  {
    HexIsOneCase(b, true);
    assert forall c :: c in ByteToOcto(b) ==> '0' <= c <= '9';
    hide ByteToHex, ByteToOcto;
  }

  lemma {:induction false} TextIsPrintable(bytes: seq<byte>, format: Format, begin: string, end: string)
    requires forall c :: c in begin + end ==> ' ' <= c <= '~'
    ensures forall c :: c in Escape(bytes, format, begin, end) ==> ' ' <= c <= '~'
    decreases |bytes|
  {
    if bytes != [] {
      TextIsPrintable(bytes[1..], format, begin, end);
      assert forall c :: c in begin || c in end ==> c in begin + end;
      if !IsRaw(bytes[0]) {
        BodyIsPrintable(bytes[0], format);
      }
      hide Body;
    }
  }

  // ---------- The array ----------

  class Bytes {
    var data: seq<byte>

    constructor (data: seq<byte>)
      ensures this.data == data
    {
      this.data := data;
    }

    /** The remainder by a spacing of zero is undefined as soon as a byte has a successor. */
    method ToHex(upper: bool, separator: string, space: nat) returns (str: string)
      requires space > 0 || |data| <= 1
      ensures str == Hex(data, upper, separator, space)
    {
      str := "";
      var i := 0;
      while i < |data|
        invariant i <= |data|
        invariant str == Hex(data[..i], upper, separator, space)
                         + (if i < |data| then Gap(i, separator, space) else "")
      {
        str := str + ByteToHex(data[i], upper);
        assert data[..i + 1][..i] == data[..i];
        if i + 1 != |data| && (i + 1) % space == 0 {
          str := str + separator;
        }
        i := i + 1;
      }
      assert data[..i] == data;
    }

    method ToEscapedString(format: Format, begin: string, end: string) returns (str: string)
      ensures str == Escape(data, format, begin, end)
    {
      str := "";
      var i := 0;
      while i < |data|
        invariant i <= |data|
        invariant str + Escape(data[i..], format, begin, end) == Escape(data, format, begin, end)
      {
        EscapeStep(data, i, str, format, begin, end);
        str := Append(str, data[i], format, begin, end);
        i := i + 1;
      }
    }

    /** The body of the loop. */
    static method Append(prefix: string, b: byte, format: Format, begin: string, end: string)
      returns (str: string)
      ensures str == prefix + EscapeByte(b, format, begin, end)
    {
      if IsRaw(b) {
        return prefix + [b as char];
      }
      str := "";
      if format == Printf {
        if b == 0x5C {
          str := str + "\\";
        } else if b == 0x0A {
          str := str + "n";
        } else if b == 0x0D {
          str := str + "n";
        } else if b == 0x09 {
          str := str + "t";
        } else if b == 0x0B {
          str := str + "v";
        } else {
          str := str + "x" + ByteToHex(b, true);
        }
      } else if format == HexFormat {
        str := str + "x" + ByteToHex(b, true);
      } else {
        str := str + ByteToOcto(b);
      }
      assert str == Body(b, format);
      hide Body;
      str := prefix + (begin + str + end);
    }
  }
}
