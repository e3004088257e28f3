/**
 Which delimiters make the escaped text of a byte array unambiguous: all pairs but those made only of
 characters that are also copied as they are. When the first delimiter, or failing that the second,
 has a character that is never copied, the first such character of a text tells where its first
 escape stands. Only an escaped backslash, whose body is such a character itself, could be mistaken
 for part of another escape, and then the two readings of the text never come together again.
 */
module Delimiters {
  import opened Basics
  import opened ByteArray

  // ---------- The first character that is not copied ----------

  /** How many characters at the front are of the kind that is copied. */
  function RawLength(s: string): (n: nat)
    ensures n <= |s| && (forall i :: 0 <= i < n ==> IsRaw(s[i] as int)) && (n < |s| ==> !IsRaw(s[n] as int))
  {
    if s == "" || !IsRaw(s[0] as int) then 0 else 1 + RawLength(s[1..])
  }

  lemma RawLengthIs(s: string, n: nat)
    requires n < |s| && (forall i :: 0 <= i < n ==> IsRaw(s[i] as int)) && !IsRaw(s[n] as int)
    ensures RawLength(s) == n
  {
    hide RawLength;
  }

  lemma RawLengthSkips(a: string, b: string)
    requires AllRaw(a) && !AllRaw(b)
    ensures RawLength(a + b) == |a| + RawLength(b) && RawLength(b) < |b| && !AllRaw(a + b)
  {
    hide RawLength;
    var n := |a| + RawLength(b);
    assert forall i :: 0 <= i < n ==> (a + b)[i] == if i < |a| then a[i] else b[i - |a|];
    assert (a + b)[n] == b[RawLength(b)];
    hide IsRaw;
    RawLengthIs(a + b, n);
  }

  lemma RawLengthWithin(a: string, b: string)
    requires !AllRaw(a)
    ensures RawLength(a + b) == RawLength(a) < |a| && !AllRaw(a + b)
  {
    hide RawLength, IsRaw;
    assert (a + b)[RawLength(a)] == a[RawLength(a)];
    RawLengthIs(a + b, RawLength(a));
  }

  lemma NonRawWithin(s: string)
    requires !AllRaw(s)
    ensures RawLength(s) < |s|
  {
    hide RawLength;
  }

  /** How many characters are not of the kind that is copied. */
  function NonRaws(s: string): nat {
    if s == "" then 0 else (if IsRaw(s[0] as int) then 0 else 1) + NonRaws(s[1..])
  }

  lemma {:induction false} NonRawsConcat(a: string, b: string)
    ensures NonRaws(a + b) == NonRaws(a) + NonRaws(b)
    decreases |a|
  {
    if a == "" {
      assert a + b == b;
    } else {
      assert (a + b)[1..] == a[1..] + b;
      NonRawsConcat(a[1..], b);
    }
  }

  lemma {:induction false} NoNonRaws(s: string)
    requires AllRaw(s)
    ensures NonRaws(s) == 0
    decreases |s|
  {
    if s != "" {
      NoNonRaws(s[1..]);
    }
  }

  // ---------- Splitting at the first escape ----------

  /** How many bytes at the front are copied. */
  function Copied(bytes: seq<byte>): (n: nat)
    ensures n <= |bytes| && (forall i :: 0 <= i < n ==> IsRaw(bytes[i])) && (n < |bytes| ==> !IsRaw(bytes[n]))
  {
    if bytes == [] || !IsRaw(bytes[0]) then 0 else 1 + Copied(bytes[1..])
  }

  /** The bytes as characters. */
  function Text(bytes: seq<byte>): (s: string)
    requires forall i :: 0 <= i < |bytes| ==> IsRaw(bytes[i])
    ensures |s| == |bytes| && AllRaw(s)
  {
    seq(|bytes|, i requires 0 <= i < |bytes| => bytes[i] as char)
  }

  /** The bytes after the first one that is not copied. */
  function After(bytes: seq<byte>): (r: seq<byte>)
    requires Copied(bytes) < |bytes|
    ensures |r| < |bytes|
  {
    bytes[Copied(bytes) + 1..]
  }

  /** What follows the copied bytes. */
  function FromEscape(bytes: seq<byte>, format: Format, begin: string, end: string): string {
    var n := Copied(bytes);
    if n == |bytes| then ""
    else begin + (Body(bytes[n], format) + (end + Escape(After(bytes), format, begin, end)))
  }

  lemma CopiedFirst(bytes: seq<byte>, format: Format, begin: string, end: string)
    requires bytes != [] && IsRaw(bytes[0])
    ensures Copied(bytes) == 1 + Copied(bytes[1..])
    ensures Text(bytes[..Copied(bytes)]) == [bytes[0] as char] + Text(bytes[1..][..Copied(bytes[1..])])
    ensures FromEscape(bytes, format, begin, end) == FromEscape(bytes[1..], format, begin, end)
  {
    hide Body, Escape;
    var n := Copied(bytes);
    if n < |bytes| {
      assert bytes[1..][n..] == bytes[n + 1..];
    }
  }

  lemma {:induction false} EscapeSplits(bytes: seq<byte>, format: Format, begin: string, end: string)
    ensures Escape(bytes, format, begin, end)
      == Text(bytes[..Copied(bytes)]) + FromEscape(bytes, format, begin, end)
    decreases |bytes|
  {
    hide Escape, Body, Text, FromEscape, Copied, IsRaw, AllRaw;
    if bytes == [] {
      NothingSplits(format, begin, end);
    } else if IsRaw(bytes[0]) {
      var more := bytes[1..];
      CopiedFirst(bytes, format, begin, end);
      EscapeCopied(bytes, format, begin, end);
      EscapeSplits(more, format, begin, end);
      Associative([bytes[0] as char], Text(more[..Copied(more)]), FromEscape(more, format, begin, end));
    } else {
      EscapeFirst(bytes, format, begin, end);
    }
  }

  lemma Associative(a: string, b: string, c: string)
    ensures a + (b + c) == (a + b) + c
  {
  }

  lemma EscapeCopied(bytes: seq<byte>, format: Format, begin: string, end: string)
    requires bytes != [] && IsRaw(bytes[0])
    ensures Escape(bytes, format, begin, end) == [bytes[0] as char] + Escape(bytes[1..], format, begin, end)
  {
    hide Body;
  }

  lemma NothingSplits(format: Format, begin: string, end: string)
    ensures Escape([], format, begin, end) == Text([][..Copied([])]) + FromEscape([], format, begin, end)
  {
  }

  lemma EscapeFirst(bytes: seq<byte>, format: Format, begin: string, end: string)
    requires bytes != [] && !IsRaw(bytes[0])
    ensures Escape(bytes, format, begin, end)
      == Text(bytes[..Copied(bytes)]) + FromEscape(bytes, format, begin, end)
  {
    hide Body, Text;
    assert Copied(bytes) == 0 && Text(bytes[..0]) == "";
    var body, rest := Body(bytes[0], format), Escape(bytes[1..], format, begin, end);
    assert Escape(bytes, format, begin, end) == begin + body + end + rest;
    hide Escape;
    Nested(begin, body, end, rest);
  }

  lemma Nested(a: string, b: string, c: string, d: string)
    ensures a + b + c + d == "" + (a + (b + (c + d)))
  {
  }

  /** The place of the first character in an escape that is never copied. */
  function Offset(b: byte, format: Format, begin: string, end: string): nat {
    if !AllRaw(begin) then RawLength(begin)
    else if format == Printf && b == 0x5C then |begin|
    else |begin| + |Body(b, format)| + RawLength(end)
  }

  lemma BackslashBody()
    ensures Body(0x5C, Printf) == "\\"
  {
  }

  /** The bodies: all characters of the kind that is copied, but for the backslash. */
  lemma BodyIsRaw(b: byte, format: Format)
    requires !(format == Printf && b == 0x5C)
    ensures AllRaw(Body(b, format))
  {
    DigitsAreRaw(b / 16);
    DigitsAreRaw(b % 16);
    DigitsAreRaw(b / 64);
    DigitsAreRaw(b / 8 % 8);
    DigitsAreRaw(b % 8);
    hide Digit;
  }

  lemma DigitsAreRaw(v: nat)
    requires v < 16
    ensures IsRaw(Digit(v, true) as int)
  {
  }

  /** Where the first character of an escape stands that is never copied. */
  lemma OffsetIsFirst(b: byte, format: Format, begin: string, end: string, rest: string)
    requires !(AllRaw(begin) && AllRaw(end)) && !IsRaw(b)
    ensures var from := begin + (Body(b, format) + (end + rest));
      !AllRaw(from) && RawLength(from) == Offset(b, format, begin, end) < |from|
  {
    hide RawLength, Body;
    var body := Body(b, format);
    if !AllRaw(begin) {
      RawLengthWithin(begin, body + (end + rest));
    } else if format == Printf && b == 0x5C {
      BackslashBody();
      StartsNonRaw(body, end + rest);
      RawLengthSkips(begin, body + (end + rest));
    } else {
      BodyIsRaw(b, format);
      RawLengthWithin(end, rest);
      RawLengthSkips(body, end + rest);
      RawLengthSkips(begin, body + (end + rest));
    }
  }

  lemma StartsNonRaw(a: string, b: string)
    requires a != "" && !IsRaw(a[0] as int)
    ensures RawLength(a + b) == 0 && !AllRaw(a + b)
  {
    assert (a + b)[0] == a[0];
  }

  /** Where the first such character of a text stands. */
  lemma FirstEscape(bytes: seq<byte>, format: Format, begin: string, end: string)
    requires !(AllRaw(begin) && AllRaw(end)) && Copied(bytes) < |bytes|
    ensures var t, n := Escape(bytes, format, begin, end), Copied(bytes);
      RawLength(t) == n + Offset(bytes[n], format, begin, end) < |t|
  {
    hide Escape, RawLength, Body, Text, Offset, AllRaw;
    var n := Copied(bytes);
    EscapeSplits(bytes, format, begin, end);
    OffsetIsFirst(bytes[n], format, begin, end, Escape(After(bytes), format, begin, end));
    RawLengthSkips(Text(bytes[..n]), FromEscape(bytes, format, begin, end));
  }

  /** A text without an escape has no such character. */
  lemma NoEscape(bytes: seq<byte>, format: Format, begin: string, end: string)
    requires Copied(bytes) == |bytes|
    ensures Escape(bytes, format, begin, end) == Text(bytes)
  {
    EscapeSplits(bytes, format, begin, end);
    assert bytes[..|bytes|] == bytes;
  }

  lemma TakeDrop(t: string, a: string, b: string, c: string)
    requires t == a + (b + c)
    ensures |t| == |a| + |b| + |c| && t[..|a|] == a && t[|a| + |b|..] == c
  {
  }

  lemma DropFirst(t: string, a: string, b: string)
    requires t == a + b
    ensures t[|a|..] == b
  {
  }

  lemma DropDrop(s: string, i: nat, j: nat)
    requires i + j <= |s|
    ensures s[i..][j..] == s[i + j..]
  {
  }

  /** The text from the body of the first escape on, and the text before its delimiter. */
  lemma AtFirstEscape(bytes: seq<byte>, format: Format, begin: string, end: string)
    requires Copied(bytes) < |bytes|
    ensures var t, n := Escape(bytes, format, begin, end), Copied(bytes);
      && n + |begin| <= |t|
      && t[..n] == Text(bytes[..n])
      && t[n + |begin|..] == Body(bytes[n], format) + (end + Escape(After(bytes), format, begin, end))
  {
    hide Escape, Body, Text, AllRaw, FromEscape, After;
    var t, n := Escape(bytes, format, begin, end), Copied(bytes);
    EscapeSplits(bytes, format, begin, end);
    var more := Body(bytes[n], format) + (end + Escape(After(bytes), format, begin, end));
    FromEscapeIs(bytes, format, begin, end);
    TakeDrop(t, Text(bytes[..n]), begin, more);
  }

  lemma FromEscapeIs(bytes: seq<byte>, format: Format, begin: string, end: string)
    requires Copied(bytes) < |bytes|
    ensures var n := Copied(bytes);
      FromEscape(bytes, format, begin, end)
        == begin + (Body(bytes[n], format) + (end + Escape(After(bytes), format, begin, end)))
  {
    hide Escape, Body, Copied;
  }

  // ---------- The escaped backslash ----------

  /** A text whose first character that is never copied comes too early for any other escape starts with
      an escaped backslash, at the latest after as many characters as `end` has before its own. */
  lemma BackslashFirst(bytes: seq<byte>, begin: string, end: string)
    requires AllRaw(begin) && !AllRaw(end)
    requires var t := Escape(bytes, Printf, begin, end); RawLength(t) < |t| && RawLength(t) <= RawLength(end)
    ensures var t, n := Escape(bytes, Printf, begin, end), Copied(bytes);
      && n < |bytes| && RawLength(t) == n + |begin|
      && t[RawLength(t) + 1..] == end + Escape(After(bytes), Printf, begin, end)
  {
    hide Escape, RawLength, Body, Text;
    var t, n := Escape(bytes, Printf, begin, end), Copied(bytes);
    if n == |bytes| {
      NoEscape(bytes, Printf, begin, end);
      assert false;
    } else {
      FirstEscape(bytes, Printf, begin, end);
      BodyIsSomething(bytes[n]);
      AtBackslash(bytes, begin, end);
    }
  }

  lemma AtBackslash(bytes: seq<byte>, begin: string, end: string)
    requires Copied(bytes) < |bytes| && bytes[Copied(bytes)] == 0x5C
    ensures var t, n := Escape(bytes, Printf, begin, end), Copied(bytes);
      n + |begin| < |t| && t[n + |begin| + 1..] == end + Escape(After(bytes), Printf, begin, end)
  {
    hide Escape, Body, Text, AllRaw;
    var t, n := Escape(bytes, Printf, begin, end), Copied(bytes);
    AtFirstEscape(bytes, Printf, begin, end);
    BackslashBody();
    var more := end + Escape(After(bytes), Printf, begin, end);
    DropFirst(t[n + |begin|..], "\\", more);
    DropDrop(t, n + |begin|, 1);
  }

  lemma BodyIsSomething(b: byte)
    ensures |Body(b, Printf)| > 0
  {
  }

  /** One reading of a text is at the end of `end`, another at a character in it that looks like a
      backslash: from there on they never come together. */
  lemma {:induction false} NeverMeets(p: seq<byte>, q: seq<byte>, begin: string, end: string)
    requires AllRaw(begin) && !AllRaw(end)
    ensures end[RawLength(end) + 1..] + Escape(p, Printf, begin, end) != end + Escape(q, Printf, begin, end)
    decreases |p| + |q|
  {
    hide Escape, RawLength;
    NonRawWithin(end);
    var k := RawLength(end);
    var front, tail := end[..k + 1], end[k + 1..];
    assert end == front + tail;
    var tp, tq := Escape(p, Printf, begin, end), Escape(q, Printf, begin, end);
    if tail + tp == end + tq {
      var u := Overhang(front, tail, tp, tq);
      BackslashFirst(p, begin, end);
      var p' := After(p);
      var tp' := Escape(p', Printf, begin, end);
      Unroll(front, tail, tp, tq, u, end + tp');
      SecondOverhang(end + tp', front, tail, tq, u, tp');
      BackslashFirst(q, begin, end);
      var q' := After(q);
      NeverMeets(p', q', begin, end);
    }
  }

  /** The part of `tp` that lies under `end` has a character that is never copied. */
  lemma Overhang(front: string, tail: string, tp: string, tq: string) returns (u: nat)
    requires front != "" && tail + tp == front + tail + tq
    requires RawLength(front + tail) == |front| - 1
    ensures u == RawLength(tp) < |front| <= |tp|
  {
    hide RawLength;
    u := RawLength(tp);
    assert |tp| == |front| + |tq|;
    var s := tp[..|front|];
    assert (tail + tp)[..|tail| + |front|] == tail + s;
    assert (front + tail + tq)[..|tail| + |front|] == front + tail;
    NonRawsConcat(tail, s);
    NonRawsConcat(front, tail);
    OneNonRaw(front, tail);
    if u >= |front| {
      NoNonRaws(s);
    }
  }

  lemma OneNonRaw(front: string, tail: string)
    requires front != "" && RawLength(front + tail) == |front| - 1
    ensures NonRaws(front) == 1
  {
    hide RawLength;
    var n := |front| - 1;
    var raw, last := front[..n], front[n..];
    assert front == raw + last;
    assert forall i :: 0 <= i < n ==> raw[i] == (front + tail)[i];
    assert !IsRaw((front + tail)[n] as int) && (front + tail)[n] == last[0];
    NoNonRaws(raw);
    NonRawsConcat(raw, last);
    assert last[1..] == "";
  }

  /** Both readings, past the first backslash of the one that is behind. */
  lemma Unroll(front: string, tail: string, tp: string, tq: string, u: nat, next: string)
    requires tail + tp == front + tail + tq && u < |front| <= |tp| && tp[u + 1..] == next
    ensures tp[..|front|] + tq == tp && |front| - u - 1 <= |next|
    ensures next[..|front| - u - 1] + tq == next
  {
    var m := |tail| + |front|;
    assert (tail + tp)[m..] == tp[|front|..];
    assert (front + tail + tq)[m..] == tq;
    assert tp[u + 1..][|front| - u - 1..] == tp[|front|..];
  }

  /** The other reading then has its backslash under `end` as well. */
  lemma SecondOverhang(next: string, front: string, tail: string, tq: string, u: nat, tp': string)
    requires u < |front| && RawLength(front + tail) == |front| - 1
    requires next == front + tail + tp' && next[..|front| - u - 1] + tq == next
    ensures RawLength(tq) == u < |tq|
    ensures tq[u + 1..] == tail + tp'
  {
    hide RawLength, IsRaw;
    var v := |front| - u - 1;
    DropFirst(next, next[..v], tq);
    FrontLength(next, front, tail, tp');
    RawLengthDrop(next, v);
    DropDrop(next, v, u + 1);
    DropFront(next, front, tail, tp');
  }

  lemma FrontLength(next: string, front: string, tail: string, more: string)
    requires front != "" && RawLength(front + tail) == |front| - 1 && next == front + tail + more
    ensures RawLength(next) == |front| - 1 < |next|
  {
    hide RawLength, IsRaw;
    var all := front + tail;
    assert !IsRaw(all[|front| - 1] as int);
    RawLengthWithin(all, more);
  }

  lemma DropFront(next: string, front: string, tail: string, more: string)
    requires next == front + tail + more
    ensures next[|front|..] == tail + more
  {
    assert next == front + (tail + more);
  }

  lemma RawLengthDrop(s: string, v: nat)
    requires v <= RawLength(s) < |s|
    ensures RawLength(s[v..]) == RawLength(s) - v
  {
    hide RawLength;
    assert forall i :: 0 <= i < |s| - v ==> s[v..][i] == s[v + i];
    RawLengthIs(s[v..], RawLength(s) - v);
  }

  // ---------- Unambiguous texts ----------

  lemma SeenJoins(a: seq<byte>, b: seq<byte>, n: nat, format: Format)
    requires n < |a| && n < |b| && a[..n] == b[..n] && Seen(a[n], format) == Seen(b[n], format)
    requires SeenAll(a[n + 1..], format) == SeenAll(b[n + 1..], format)
    ensures SeenAll(a, format) == SeenAll(b, format)
  {
    hide Seen;
    var ra, rb := a[n + 1..], b[n + 1..];
    assert |ra| == |SeenAll(ra, format)| == |SeenAll(rb, format)| == |rb|;
    forall i | 0 <= i < |a| ensures Seen(a[i], format) == Seen(b[i], format) {
      if i < n {
        assert a[..n][i] == b[..n][i];
      } else if i > n {
        assert SeenAll(ra, format)[i - n - 1] == Seen(ra[i - n - 1], format);
        assert SeenAll(rb, format)[i - n - 1] == Seen(rb[i - n - 1], format);
      }
    }
  }

  lemma TextIsInjective(a: seq<byte>, b: seq<byte>)
    requires (forall i :: 0 <= i < |a| ==> IsRaw(a[i])) && (forall i :: 0 <= i < |b| ==> IsRaw(b[i]))
    requires Text(a) == Text(b)
    ensures a == b
  {
    forall i | 0 <= i < |a| ensures a[i] == b[i] {
      assert Text(a)[i] == a[i] as char && Text(b)[i] == b[i] as char;
    }
  }

  /** Two bodies with something after them are the same text only for bytes that look the same. */
  lemma SameBody(x: byte, y: byte, format: Format, more: string, more': string)
    requires !IsRaw(x) && !IsRaw(y) && Body(x, format) + more == Body(y, format) + more'
    ensures Seen(x, format) == Seen(y, format) && more == more'
  {
    hide Body, ReadBody;
    BodyIsRead(x, format, more);
    BodyIsRead(y, format, more');
  }

  /** First escapes of equal texts that start at the same place are of the same byte, and what follows
      them is equal too. */
  lemma SamePlace(a: seq<byte>, b: seq<byte>, format: Format, begin: string, end: string)
    requires Copied(a) == Copied(b) < |a| && Copied(b) < |b|
    requires Escape(a, format, begin, end) == Escape(b, format, begin, end)
    ensures var n := Copied(a);
      && a[..n] == b[..n] && Seen(a[n], format) == Seen(b[n], format)
      && Escape(After(a), format, begin, end) == Escape(After(b), format, begin, end)
  {
    hide Escape, Body, Text, Seen, Copied, IsRaw, AllRaw, After;
    var n := Copied(a);
    AtFirstEscape(a, format, begin, end);
    AtFirstEscape(b, format, begin, end);
    TextIsInjective(a[..n], b[..n]);
    var ra, rb := Escape(After(a), format, begin, end), Escape(After(b), format, begin, end);
    SameBody(a[n], b[n], format, end + ra, end + rb);
    DropFirst(end + ra, end, ra);
    DropFirst(end + rb, end, rb);
  }

  /** Equal texts cannot have their first escapes at different places. */
  lemma NoShift(a: seq<byte>, b: seq<byte>, format: Format, begin: string, end: string)
    requires !(AllRaw(begin) && AllRaw(end))
    requires Copied(a) < |a| && Copied(b) < |b| && Copied(b) < Copied(a)
    ensures Escape(a, format, begin, end) != Escape(b, format, begin, end)
  {
    hide Escape, Body, Text, RawLength;
    var t := Escape(a, format, begin, end);
    var n, m := Copied(a), Copied(b);
    if t == Escape(b, format, begin, end) {
      FirstEscape(a, format, begin, end);
      FirstEscape(b, format, begin, end);
      BodyLength(a[n], format);
      BodyLength(b[m], format);
      if a[n] == 0x5C {
        BackslashShift(a, b, begin, end);
      } else {
        LetterShift(a, b, begin, end);
      }
      assert false;
    }
  }

  lemma BodyLength(b: byte, format: Format)
    requires !IsRaw(b)
    ensures |Body(b, format)| == if format == Printf && b in {0x5C, 0x0A, 0x0D, 0x09, 0x0B} then 1 else 3
  {
  }

  /** The escape that starts later is of one letter, the other of two digits: the letter would be a
      digit. */
  lemma LetterShift(a: seq<byte>, b: seq<byte>, begin: string, end: string)
    requires Copied(a) < |a| && Copied(b) < |b|
    requires Copied(a) == Copied(b) + 2
    requires |Body(a[Copied(a)], Printf)| == 1 && a[Copied(a)] != 0x5C && |Body(b[Copied(b)], Printf)| == 3
    ensures Escape(a, Printf, begin, end) != Escape(b, Printf, begin, end)
  {
    hide Escape, Text;
    var t, n, m := Escape(a, Printf, begin, end), Copied(a), Copied(b);
    if t == Escape(b, Printf, begin, end) {
      AtFirstEscape(a, Printf, begin, end);
      AtFirstEscape(b, Printf, begin, end);
      hide Body, Copied;
      var ra, rb := Escape(After(a), Printf, begin, end), Escape(After(b), Printf, begin, end);
      CharAt(t, n + |begin|, Body(a[n], Printf), end + ra, 0);
      CharAt(t, m + |begin|, Body(b[m], Printf), end + rb, 2);
      LetterIsNoDigit(a[n], b[m]);
      assert false;
    }
  }

  lemma CharAt(t: string, i: nat, body: string, more: string, j: nat)
    requires i <= |t| && t[i..] == body + more && j < |body|
    ensures i + j < |t| && t[i + j] == body[j]
  {
    assert t[i..][j] == t[i + j];
  }

  lemma LetterIsNoDigit(x: byte, y: byte)
    requires !IsRaw(x) && !IsRaw(y) && x != 0x5C
    requires |Body(x, Printf)| == 1 && |Body(y, Printf)| == 3
    ensures Body(x, Printf)[0] != Body(y, Printf)[2]
  {
  }

  /** The escape that starts later is of the backslash. */
  lemma BackslashShift(a: seq<byte>, b: seq<byte>, begin: string, end: string)
    requires AllRaw(begin) && !AllRaw(end)
    requires Copied(a) < |a| && Copied(b) < |b| && a[Copied(a)] == 0x5C
    requires Copied(a) == Copied(b) + |Body(b[Copied(b)], Printf)| + RawLength(end)
    ensures Escape(a, Printf, begin, end) != Escape(b, Printf, begin, end)
  {
    hide Escape, Body, Text, RawLength, Copied, IsRaw, AllRaw, After;
    var t, n, m := Escape(a, Printf, begin, end), Copied(a), Copied(b);
    var k := RawLength(end);
    NonRawWithin(end);
    if t == Escape(b, Printf, begin, end) {
      var ra, rb := Escape(After(a), Printf, begin, end), Escape(After(b), Printf, begin, end);
      AtBackslash(a, begin, end);
      AtFirstEscape(b, Printf, begin, end);
      PastEnd(t, m + |begin|, Body(b[m], Printf), end, rb, k + 1);
      NeverMeets(After(b), After(a), begin, end);
      assert false;
    }
  }

  lemma PastEnd(t: string, i: nat, body: string, end: string, rest: string, k: nat)
    requires i <= |t| && t[i..] == body + (end + rest) && k <= |end|
    ensures t[i + |body| + k..] == end[k..] + rest
  {
    DropFirst(t[i..], body, end + rest);
    DropDrop(t, i, |body|);
    DropDrop(t, i + |body|, k);
    assert (end + rest)[k..] == end[k..] + rest;
  }

  /** Equal texts are of bytes that look the same. */
  lemma {:induction false} EqualTextsLookAlike(a: seq<byte>, b: seq<byte>, format: Format, begin: string, end: string)
    requires !(AllRaw(begin) && AllRaw(end))
    requires Escape(a, format, begin, end) == Escape(b, format, begin, end)
    ensures SeenAll(a, format) == SeenAll(b, format)
    decreases |a|
  {
    hide Escape, SeenAll, Seen, RawLength, Text, Offset, AllRaw;
    var n, m := Copied(a), Copied(b);
    if n == |a| || m == |b| {
      BothCopied(a, b, format, begin, end);
    } else {
      if n < m {
        NoShift(b, a, format, begin, end);
      } else if m < n {
        NoShift(a, b, format, begin, end);
      }
      SamePlace(a, b, format, begin, end);
      EqualTextsLookAlike(After(a), After(b), format, begin, end);
      SeenJoins(a, b, n, format);
    }
  }

  lemma BothCopied(a: seq<byte>, b: seq<byte>, format: Format, begin: string, end: string)
    requires !(AllRaw(begin) && AllRaw(end))
    requires Escape(a, format, begin, end) == Escape(b, format, begin, end)
    requires Copied(a) == |a| || Copied(b) == |b|
    ensures SeenAll(a, format) == SeenAll(b, format)
  {
    hide Escape, RawLength, Text, Offset;
    CopiedOnlyIf(a, b, format, begin, end);
    CopiedOnlyIf(b, a, format, begin, end);
    NoEscape(a, format, begin, end);
    NoEscape(b, format, begin, end);
    TextIsInjective(a, b);
  }

  lemma CopiedOnlyIf(a: seq<byte>, b: seq<byte>, format: Format, begin: string, end: string)
    requires !(AllRaw(begin) && AllRaw(end))
    requires Escape(a, format, begin, end) == Escape(b, format, begin, end)
    ensures Copied(a) == |a| ==> Copied(b) == |b|
  {
    hide Escape, Text, Offset;
    if Copied(a) == |a| && Copied(b) < |b| {
      NoEscape(a, format, begin, end);
      FirstEscape(b, format, begin, end);
      assert false;
    }
  }

  /** The exact condition: escaped texts tell all arrays apart, as far as the format can, if and only if
      some character of the delimiters is one that is never copied. */
  lemma UnambiguousIff(format: Format, begin: string, end: string)
    ensures (forall a: seq<byte>, b: seq<byte> ::
               Escape(a, format, begin, end) == Escape(b, format, begin, end)
               <==> SeenAll(a, format) == SeenAll(b, format))
      <==> !(AllRaw(begin) && AllRaw(end))
  {
    hide Escape, SeenAll, AllRaw;
    if AllRaw(begin) && AllRaw(end) {
      RawDelimitersAreAmbiguous(format, begin, end);
    } else {
      forall a: seq<byte>, b: seq<byte>
        ensures Escape(a, format, begin, end) == Escape(b, format, begin, end)
          <==> SeenAll(a, format) == SeenAll(b, format)
      {
        if Escape(a, format, begin, end) == Escape(b, format, begin, end) {
          EqualTextsLookAlike(a, b, format, begin, end);
        }
        if SeenAll(a, format) == SeenAll(b, format) {
          SeenPrintsAlike(a, b, format, begin, end);
        }
      }
    }
  }
}
