/**
 Reading the configuration file: a loop over an input stream that runs while the end of the file has
 not been seen. The stream keeps two bits apart, end of file and failure, and once it has failed
 nothing is read from it any more. The loop agrees with `ConfigText.Scan`, and it ends exactly on the
 texts that do not get stuck.
 */
module ConfigReader {
  import opened ConfigText

  /** What is unread, and the two bits. */
  datatype Stream = Stream(rest: string, eof: bool, fail: bool) {
    predicate Good() {
      !eof && !fail
    }

    /** What the guard in front of every extraction does to a stream that is not good. */
    function Refused(): Stream {
      this.(fail := true)
    }
  }

  function Opened(text: string): Stream {
    Stream(text, false, false)
  }

  // ---------- The extractions ----------

  /** `getline(in, attr, delim)`: a stream that is not good leaves the old string in place. */
  function GetLine(s: Stream, line: string, delim: char): (Stream, string) {
    if !s.Good() then (s.Refused(), line)
    else
      var i := Find(s.rest, delim);
      if i < |s.rest| then (Opened(s.rest[i + 1..]), s.rest[..i])
      else (Stream("", true, s.rest == ""), s.rest)
  }

  /** `in >> n`: a malformed number is stored all the same, as zero or as the nearest integer. */
  function ReadInt(s: Stream, n: int): (Stream, int) {
    if !s.Good() then (s.Refused(), n)
    else
      var t := SkipSpaces(s.rest);
      if t == "" then (Stream("", true, true), n)
      else
        var p := ParseInt(t);
        (Stream(p.rest, p.rest == "", !p.ok), p.value)
  }

  /** `in >> w`. */
  function ReadWord(s: Stream, w: string): (Stream, string) {
    if !s.Good() then (s.Refused(), w)
    else
      var t := SkipSpaces(s.rest);
      if t == "" then (Stream("", true, true), w)
      else
        var n := WordLength(t);
        (Stream(t[n..], n == |t|, false), t[..n])
  }

  /** `in.ignore(max, '\n')`. */
  function Ignore(s: Stream): Stream {
    if !s.Good() then s.Refused()
    else Stream(DropLine(s.rest), Find(s.rest, '\n') == |s.rest|, false)
  }

  /** The stream as the program uses it, changed by each extraction. */
  class InStream {
    var rest: string
    var eofbit: bool
    var failbit: bool

    function Abs(): Stream
      reads this
    {
      Stream(rest, eofbit, failbit)
    }

    constructor (text: string)
      ensures Abs() == Opened(text)
    {
      rest, eofbit, failbit := text, false, false;
    }

    /** Takes characters until the delimiter, which is taken as well but not kept. */
    method Getline(line: string, delim: char) returns (r: string)
      modifies this
      ensures (Abs(), r) == GetLine(old(Abs()), line, delim)
    {
      if eofbit || failbit {
        failbit := true;
        return line;
      }
      r := "";
      ghost var text, i := rest, Find(rest, delim);
      while rest != "" && rest[0] != delim
        invariant |r| <= i && r == text[..|r|] && rest == text[|r|..]
        invariant !eofbit && !failbit
        decreases |rest|
      {
        r, rest := r + [rest[0]], rest[1..];
      }
      if rest == "" {
        assert r == text;
        eofbit, failbit := true, r == "";
      } else {
        assert text[|r|] == delim && |r| == i;
        assert text[i + 1..] == text[i..][1..];
        rest := rest[1..];
      }
    }

    method ExtractInt(n: int) returns (r: int)
      modifies this
      ensures (Abs(), r) == ReadInt(old(Abs()), n)
    {
      if eofbit || failbit {
        failbit := true;
        return n;
      }
      rest := SkipSpaces(rest);
      if rest == "" {
        eofbit, failbit := true, true;
        return n;
      }
      var p := ParseInt(rest);
      rest, eofbit, failbit, r := p.rest, p.rest == "", !p.ok, p.value;
    }

    method ExtractWord(w: string) returns (r: string)
      modifies this
      ensures (Abs(), r) == ReadWord(old(Abs()), w)
    {
      if eofbit || failbit {
        failbit := true;
        return w;
      }
      rest := SkipSpaces(rest);
      if rest == "" {
        eofbit, failbit := true, true;
        return w;
      }
      var n := WordLength(rest);
      r, rest, eofbit := rest[..n], rest[n..], n == |rest|;
    }

    method IgnoreLine()
      modifies this
      ensures Abs() == Ignore(old(Abs()))
    {
      if eofbit || failbit {
        failbit := true;
      } else {
        rest, eofbit := DropLine(rest), Find(rest, '\n') == |rest|;
      }
    }
  }

  // ---------- The loop ----------

  /** The variables of the loop. */
  datatype Reader = Reader(stream: Stream, attr: string, args: Arguments)

  /** The value that follows an attribute, into the argument the attribute names. */
  function Dispatch(r: Reader, ssl: bool): Reader {
    if r.attr == "PORT" then
      var (s, n) := ReadInt(r.stream, r.args.port);
      r.(stream := s, args := r.args.(port := n))
    else if r.attr == "ADDRESS" then
      var (s, w) := ReadWord(r.stream, r.args.addr);
      r.(stream := s, args := r.args.(addr := w))
    else if r.attr == "THREADS" then
      var (s, n) := ReadInt(r.stream, r.args.threads);
      r.(stream := s, args := r.args.(threads := n))
    else if ssl && r.attr == "KEY" then
      var (s, w) := ReadWord(r.stream, r.args.key);
      r.(stream := s, args := r.args.(key := w))
    else if ssl && r.attr == "CERT" then
      var (s, w) := ReadWord(r.stream, r.args.cert);
      r.(stream := s, args := r.args.(cert := w))
    else r
  }

  /** One iteration of the loop, entered or not. */
  function Iterate(r: Reader, ssl: bool): Reader {
    if r.stream.eof then r
    else
      var (s, attr) := GetLine(r.stream, r.attr, '=');
      var named := Reader(s, attr, r.args);
      if attr == "" then named
      else
        var read := Dispatch(named, ssl);
        read.(stream := Ignore(read.stream))
  }

  function IterateTimes(r: Reader, ssl: bool, n: nat): Reader
    decreases n
  {
    if n == 0 then r else IterateTimes(Iterate(r, ssl), ssl, n - 1)
  }

  /** The loop leaves after finitely many iterations. */
  ghost predicate Ends(r: Reader, ssl: bool) {
    exists n: nat :: IterateTimes(r, ssl, n).stream.eof
  }

  // ---------- The loop agrees with the meaning of the text ----------

  /** What the loop has still to do with a stream: nothing at the end of the file, nothing ever after a
      failure, and otherwise what the unread text says. */
  function Remaining(s: Stream, ssl: bool): Meaning {
    if s.eof then Meaning([], false)
    else if s.fail then Meaning([], true)
    else Scan(s.rest, ssl)
  }

  function Outcome(r: Reader, ssl: bool): Arguments {
    AssignAll(r.args, Remaining(r.stream, ssl).assigns)
  }

  /** A failed stream that never reached the end of the file, with a name left over from before. */
  predicate Failed(r: Reader) {
    r.stream.fail && !r.stream.eof && r.attr != ""
  }

  /** The text says the same before and after a number is taken off it, up to one assignment. */
  lemma ReadIntScans(s: Stream, key: string, n: int, ssl: bool)
    requires s.Good()
    ensures var (s', v) := ReadInt(s, n); var t := Ignore(s');
      |t.rest| <= |s.rest|
      && ScanInt(key, SkipSpaces(s.rest), ssl) ==
           (if SkipSpaces(s.rest) == "" then Remaining(t, ssl) else Then(SetInt(key, v), Remaining(t, ssl)))
      && (SkipSpaces(s.rest) == "" ==> v == n)
  {
    ScanNothing(ssl);
    ParsedFits(SkipSpaces(s.rest));
    hide ParseInt, ParseDigits, Scan, Leading, Find;
  }

  lemma ScanNothing(ssl: bool)
    ensures Scan("", ssl) == Meaning([], false)
  {
  }

  lemma ReadWordScans(s: Stream, key: string, w: string, ssl: bool)
    requires s.Good()
    ensures var (s', v) := ReadWord(s, w); var t := Ignore(s');
      |t.rest| <= |s.rest| && (t.eof || t.Good())
      && ScanWord(key, SkipSpaces(s.rest), ssl) ==
           (if SkipSpaces(s.rest) == "" then Remaining(t, ssl) else Then(SetWord(key, v), Remaining(t, ssl)))
      && (SkipSpaces(s.rest) == "" ==> v == w)
  {
    ScanNothing(ssl);
    hide Scan, Leading, Find;
  }

  /** An argument is read, or a line without one skipped, as the text says. */
  lemma DispatchScans(r: Reader, ssl: bool)
    requires r.stream.Good()
    ensures var d := Dispatch(r, ssl); var t := d.(stream := Ignore(d.stream));
      var s := SkipSpaces(r.stream.rest);
      var m := if IntKey(r.attr) then ScanInt(r.attr, s, ssl)
               else if WordKey(r.attr, ssl) then ScanWord(r.attr, s, ssl)
               else Scan(DropLine(r.stream.rest), ssl);
      t.attr == r.attr && |t.stream.rest| <= |r.stream.rest|
      && Outcome(t, ssl) == AssignAll(r.args, m.assigns) && Remaining(t.stream, ssl).stuck == m.stuck
  {
    var d := Dispatch(r, ssl);
    var rest := Remaining(Ignore(d.stream), ssl);
    if IntKey(r.attr) {
      var n := if r.attr == "PORT" then r.args.port else r.args.threads;
      ReadIntScans(r.stream, r.attr, n, ssl);
      AssignFirst(r.args, SetInt(r.attr, ReadInt(r.stream, n).1), rest);
    } else if WordKey(r.attr, ssl) {
      var w := if r.attr == "ADDRESS" then r.args.addr else if r.attr == "KEY" then r.args.key else r.args.cert;
      ReadWordScans(r.stream, r.attr, w, ssl);
      AssignFirst(r.args, SetWord(r.attr, ReadWord(r.stream, w).1), rest);
    } else {
      ScanNothing(ssl);
      assert d == r;
      assert rest == Scan(DropLine(r.stream.rest), ssl) by {
        hide Scan;
      }
    }
    hide Scan, ReadInt, ReadWord, ScanInt, ScanWord, Remaining, Ignore, SkipSpaces, AssignAll;
  }

  /** Nothing is read from a stream that is not good. */
  lemma DispatchRefused(r: Reader, ssl: bool)
    requires !r.stream.Good()
    ensures var d := Dispatch(r, ssl);
      d.args == r.args && d.attr == r.attr && (d.stream == r.stream || d.stream == r.stream.Refused())
  {
  }

  /** One iteration of a good stream takes something off the text and leaves the outcome alone. */
  lemma IterateKeepsOutcome(r: Reader, ssl: bool)
    requires r.stream.Good()
    ensures var t := Iterate(r, ssl);
      Outcome(t, ssl) == Outcome(r, ssl)
      && Remaining(t.stream, ssl).stuck == Remaining(r.stream, ssl).stuck
      && (t.stream.eof || Failed(t) || (t.stream.Good() && |t.stream.rest| < |r.stream.rest|))
  {
    hide Dispatch, ScanInt, ScanWord, AssignAll, DropLine, Find, SkipSpaces, IntKey, WordKey;
    var (s, attr) := GetLine(r.stream, r.attr, '=');
    var named := Reader(s, attr, r.args);
    if s.Good() {
      if attr != "" {
        DispatchScans(named, ssl);
      }
    } else {
      DispatchRefused(named, ssl);
    }
  }

  /** Once the stream has failed before its end, no iteration changes anything. */
  lemma FailedIsForever(r: Reader, ssl: bool, n: nat)
    requires Failed(r)
    ensures IterateTimes(r, ssl, n) == r
  {
    if n > 0 {
      assert Iterate(r, ssl) == r;
      FailedIsForever(r, ssl, n - 1);
    }
  }

  /** A text that does not get stuck is read to its end, and the arguments come out as its assignments
      say. */
  lemma {:induction false} EndsWithOutcome(r: Reader, ssl: bool) returns (n: nat)
    requires r.stream.eof || r.stream.Good()
    requires !Remaining(r.stream, ssl).stuck
    ensures var t := IterateTimes(r, ssl, n); t.stream.eof && t.args == Outcome(r, ssl)
    decreases !r.stream.eof, |r.stream.rest|
  {
    hide Scan, Iterate;
    if r.stream.eof {
      n := 0;
    } else {
      IterateKeepsOutcome(r, ssl);
      var m := EndsWithOutcome(Iterate(r, ssl), ssl);
      n := m + 1;
    }
  }

  /** A text that gets stuck is never read to its end. */
  lemma {:induction false} StuckNeverEnds(r: Reader, ssl: bool, n: nat)
    requires r.stream.Good() || Failed(r)
    requires Remaining(r.stream, ssl).stuck
    ensures !IterateTimes(r, ssl, n).stream.eof
    decreases n
  {
    hide Scan, AssignAll, Iterate;
    if Failed(r) {
      FailedIsForever(r, ssl, n);
    } else if n > 0 {
      IterateKeepsOutcome(r, ssl);
      StuckNeverEnds(Iterate(r, ssl), ssl, n - 1);
    }
  }

  /** The loop ends exactly on the texts without a malformed number before their end. */
  lemma ReadingEndsIff(text: string, args: Arguments, ssl: bool)
    ensures Ends(Reader(Opened(text), "", args), ssl) <==> !Scan(text, ssl).stuck
  {
    var r := Reader(Opened(text), "", args);
    if Scan(text, ssl).stuck {
      forall n: nat
        ensures !IterateTimes(r, ssl, n).stream.eof
      {
        StuckNeverEnds(r, ssl, n);
      }
    } else {
      var n := EndsWithOutcome(r, ssl);
    }
  }

  /** The body of the loop. */
  method ReadAttribute(stream: InStream, attr: string, args: Arguments, ssl: bool)
    returns (attr': string, args': Arguments)
    requires !stream.eofbit
    modifies stream
    ensures Reader(stream.Abs(), attr', args') == Iterate(Reader(old(stream.Abs()), attr, args), ssl)
  {
    args' := args;
    attr' := stream.Getline(attr, '=');
    if attr' != "" {
      if attr' == "PORT" {
        var n := stream.ExtractInt(args.port);
        args' := args.(port := n);
      } else if attr' == "ADDRESS" {
        var w := stream.ExtractWord(args.addr);
        args' := args.(addr := w);
      } else if attr' == "THREADS" {
        var n := stream.ExtractInt(args.threads);
        args' := args.(threads := n);
      } else if ssl && attr' == "KEY" {
        var w := stream.ExtractWord(args.key);
        args' := args.(key := w);
      } else if ssl && attr' == "CERT" {
        var w := stream.ExtractWord(args.cert);
        args' := args.(cert := w);
      }
      stream.IgnoreLine();
    }
  }

  /** The loop on any text at all, watched for some number of rounds: where it is then, and whether it
      has left. `ReadingEndsIff` says of which texts it ever does. */
  method ReadForRounds(text: string, init: Arguments, ssl: bool, rounds: nat) returns (args: Arguments, left: bool)
    ensures var r := IterateTimes(Reader(Opened(text), "", init), ssl, rounds);
      args == r.args && left == r.stream.eof
  {
    hide Iterate, IterateTimes;
    var stream := new InStream(text);
    var attr := "";
    args := init;
    ghost var start := Reader(Opened(text), "", init);
    var i := 0;
    while i < rounds && !stream.eofbit
      invariant i <= rounds && fresh(stream)
      invariant IterateTimes(Reader(stream.Abs(), attr, args), ssl, rounds - i) == IterateTimes(start, ssl, rounds)
    {
      IterateOnce(Reader(stream.Abs(), attr, args), ssl, rounds - i);
      attr, args := ReadAttribute(stream, attr, args, ssl);
      i := i + 1;
    }
    left := stream.eofbit;
    LeftIsForever(Reader(stream.Abs(), attr, args), ssl, rounds - i);
  }

  lemma IterateOnce(r: Reader, ssl: bool, n: nat)
    requires n > 0
    ensures IterateTimes(r, ssl, n) == IterateTimes(Iterate(r, ssl), ssl, n - 1)
  {
    hide Iterate;
  }

  lemma LeftIsForever(r: Reader, ssl: bool, n: nat)
    requires r.stream.eof || n == 0
    ensures IterateTimes(r, ssl, n) == r
  {
    if n > 0 {
      LeftIsForever(r, ssl, n - 1);
    }
  }

  /** The loop itself, on the texts on which it ends: the assignments of the text are made in order. */
  method ReadConfigFile(text: string, init: Arguments, ssl: bool) returns (args: Arguments)
    requires !Scan(text, ssl).stuck
    ensures args == AssignAll(init, Scan(text, ssl).assigns)
  {
    var stream := new InStream(text);
    var attr := "";
    args := init;
    while !stream.eofbit
      invariant var r := Reader(stream.Abs(), attr, args);
        (r.stream.eof || r.stream.Good())
        && Outcome(r, ssl) == AssignAll(init, Scan(text, ssl).assigns) && !Remaining(r.stream, ssl).stuck
      invariant fresh(stream)
      decreases !stream.eofbit, |stream.rest|
    {
      IterateKeepsOutcome(Reader(stream.Abs(), attr, args), ssl);
      hide Outcome, Remaining, Iterate;
      attr, args := ReadAttribute(stream, attr, args, ssl);
    }
  }
}
