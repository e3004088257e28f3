/**
 The configuration file: how the arguments are printed, and what the text of a file means, said
 without reference to streams. `ConfigReader` is the loop over a stream that has to agree with it.
 */
module ConfigText {

  /** `ssl` in the functions below says whether the build has key and certificate at all. */
  datatype Arguments = Arguments(addr: string, port: int, threads: int, key: string, cert: string)

  const INT_MAX := 0x7fff_ffff
  const INT_MIN := -0x8000_0000

  predicate IsInt(n: int) {
    INT_MIN <= n <= INT_MAX
  }

  // ---------- Characters ----------

  predicate IsSpace(c: char) {
    c == ' ' || c == '\t' || c == '\n' || c == '\U{b}' || c == '\U{c}' || c == '\r'
  }

  predicate IsVisible(c: char) {
    !IsSpace(c)
  }

  predicate IsDigit(c: char) {
    '0' <= c <= '9'
  }

  /** How many characters at the front satisfy the test. */
  function Leading(p: char -> bool, s: string): (n: nat)
    ensures n <= |s|
    ensures forall i :: 0 <= i < n ==> p(s[i])
    ensures n < |s| ==> !p(s[n])
  {
    if s == [] || !p(s[0]) then 0 else 1 + Leading(p, s[1..])
  }

  lemma {:induction false} LeadingOf(p: char -> bool, a: string, b: string)
    requires forall i :: 0 <= i < |a| ==> p(a[i])
    requires b != [] ==> !p(b[0])
    ensures Leading(p, a + b) == |a|
  {
    if a == [] {
      assert a + b == b;
    } else {
      assert (a + b)[1..] == a[1..] + b;
      LeadingOf(p, a[1..], b);
    }
  }

  function SkipSpaces(s: string): (rest: string)
    ensures |rest| <= |s|
    ensures rest != "" ==> !IsSpace(rest[0])
  {
    s[Leading(IsSpace, s)..]
  }

  /** The length of the word at the front. */
  function WordLength(s: string): nat {
    Leading(IsVisible, s)
  }

  /** A non-empty string without white space. */
  predicate IsToken(s: string) {
    s != "" && forall i :: 0 <= i < |s| ==> !IsSpace(s[i])
  }

  predicate AllSpaces(s: string) {
    forall i :: 0 <= i < |s| ==> IsSpace(s[i])
  }

  /** Where `c` first occurs, or the length. */
  function Find(s: string, c: char): (i: nat)
    ensures i <= |s|
    ensures c !in s[..i]
    ensures i < |s| ==> s[i] == c
  {
    if s == [] || s[0] == c then 0 else
      var i := Find(s[1..], c);
      assert s[..1 + i] == [s[0]] + s[1..][..i];
      1 + i
  }

  lemma {:induction false} FindOf(a: string, c: char, b: string)
    requires c !in a
    ensures Find(a + [c] + b, c) == |a|
  {
    if a != [] {
      assert (a + [c] + b)[1..] == a[1..] + [c] + b;
      FindOf(a[1..], c, b);
    }
  }

  /** The rest of the text after the current line. */
  function DropLine(s: string): (rest: string)
    ensures |rest| <= |s|
  {
    var i := Find(s, '\n');
    if i == |s| then [] else s[i + 1..]
  }

  // ---------- Integers ----------

  function DigitsOf(n: nat): string {
    var digit := ('0' as int + n % 10) as char;
    if n < 10 then [digit] else DigitsOf(n / 10) + [digit]
  }

  /** What `operator<<` prints. */
  function Decimal(n: int): string {
    if n < 0 then ['-'] + DigitsOf(-n) else DigitsOf(n)
  }

  function DigitValue(c: char): (v: nat)
    requires IsDigit(c)
  {
    c as int - '0' as int
  }

  function ValueOf(digits: string): nat
    requires forall i :: 0 <= i < |digits| ==> IsDigit(digits[i])
  {
    if digits == [] then 0
    else 10 * ValueOf(digits[..|digits| - 1]) + DigitValue(digits[|digits| - 1])
  }

  /** What `operator>>` makes of the text after the spaces: the value stored, whether it is a success,
      and what is left unread. */
  datatype Parsed = Parsed(value: int, ok: bool, rest: string)

  function ParseInt(s: string): Parsed {
    if s != [] && s[0] == '-' then ParseDigits(-1, s[1..])
    else if s != [] && s[0] == '+' then ParseDigits(1, s[1..])
    else ParseDigits(1, s)
  }

  /** The digits after the sign. */
  function ParseDigits(sign: int, t: string): Parsed
    requires sign == 1 || sign == -1
  {
    var n := Leading(IsDigit, t);
    if n == 0 then Parsed(0, false, t)
    else
      var v := sign * ValueOf(t[..n]);
      if v > INT_MAX then Parsed(INT_MAX, false, t[n..])
      else if v < INT_MIN then Parsed(INT_MIN, false, t[n..])
      else Parsed(v, true, t[n..])
  }

  lemma ParsedFits(s: string)
    ensures IsInt(ParseInt(s).value) && |ParseInt(s).rest| <= |s|
  {
  }

  lemma {:induction false} DigitsRoundTrip(n: nat)
    ensures var d := DigitsOf(n);
      d != [] && (forall i :: 0 <= i < |d| ==> IsDigit(d[i])) && ValueOf(d) == n
  {
    if n >= 10 {
      DigitsRoundTrip(n / 10);
      var d := DigitsOf(n);
      assert d[..|d| - 1] == DigitsOf(n / 10);
    }
  }

  lemma ParseDigitsOf(sign: int, n: nat, rest: string)
    requires sign == 1 || sign == -1
    requires IsInt(sign * n) && (rest == [] || !IsDigit(rest[0]))
    ensures ParseDigits(sign, DigitsOf(n) + rest) == Parsed(sign * n, true, rest)
  {
    var d := DigitsOf(n);
    DigitsRoundTrip(n);
    LeadingOf(IsDigit, d, rest);
    hide DigitsOf;
    assert (d + rest)[..|d|] == d && (d + rest)[|d|..] == rest;
  }

  /** What is printed is read back, and printing does not start with a space. */
  lemma DecimalRoundTrip(n: int, rest: string)
    requires IsInt(n) && (rest == [] || !IsDigit(rest[0]))
    ensures ParseInt(Decimal(n) + rest) == Parsed(n, true, rest)
    ensures Decimal(n) != [] && !IsSpace(Decimal(n)[0])
  {
    hide DigitsOf, ParseDigits, ValueOf, Leading;
    if n < 0 {
      ParseDigitsOf(-1, -n, rest);
      assert (Decimal(n) + rest)[1..] == DigitsOf(-n) + rest;
    } else {
      ParseDigitsOf(1, n, rest);
      DigitsRoundTrip(n);
      assert IsDigit(DigitsOf(n)[0]);
    }
  }

  // ---------- Printing ----------

  function Line(key: string, value: string): string {
    key + "=" + value + "\n"
  }

  /** `make_config_options_output`. */
  function Print(args: Arguments, ssl: bool): string {
    Line("PORT", Decimal(args.port)) + (Line("ADDRESS", args.addr) + (Line("THREADS", Decimal(args.threads))
    + (if ssl then Line("KEY", args.key) + Line("CERT", args.cert) else "")))
  }

  // ---------- Meaning ----------

  datatype Assignment = SetInt(key: string, n: int) | SetWord(key: string, w: string)

  predicate IntKey(key: string) {
    key == "PORT" || key == "THREADS"
  }

  predicate WordKey(key: string, ssl: bool) {
    key == "ADDRESS" || (ssl && (key == "KEY" || key == "CERT"))
  }

  /** The assignments a text makes, in order; `stuck` when a number is malformed before the end of
      the text, after which reading never gets any further. */
  datatype Meaning = Meaning(assigns: seq<Assignment>, stuck: bool)

  function Scan(text: string, ssl: bool): Meaning
    decreases |text|, 0
  {
    var i := Find(text, '=');
    if i == |text| then Meaning([], false)
    else
      var key, rest := text[..i], text[i + 1..];
      if key == "" then Scan(rest, ssl)
      else if IntKey(key) then ScanInt(key, SkipSpaces(rest), ssl)
      else if WordKey(key, ssl) then ScanWord(key, SkipSpaces(rest), ssl)
      else Scan(DropLine(rest), ssl)
  }

  function ScanInt(key: string, s: string, ssl: bool): Meaning
    decreases |s|, 1
  {
    if s == "" then Meaning([], false)
    else
      var p := ParseInt(s);
      var a := SetInt(key, p.value);
      if p.rest == "" then Meaning([a], false)
      else if !p.ok then Meaning([a], true)
      else Then(a, Scan(DropLine(p.rest), ssl))
  }

  function ScanWord(key: string, s: string, ssl: bool): Meaning
    requires s != "" ==> !IsSpace(s[0])
    decreases |s|, 1
  {
    if s == "" then Meaning([], false)
    else
      var n := WordLength(s);
      var a := SetWord(key, s[..n]);
      if n == |s| then Meaning([a], false) else Then(a, Scan(DropLine(s[n..]), ssl))
  }

  function Then(a: Assignment, m: Meaning): Meaning {
    Meaning([a] + m.assigns, m.stuck)
  }

  function Assign(args: Arguments, a: Assignment): Arguments {
    match a
    case SetInt(key, n) =>
      if key == "PORT" then args.(port := n) else if key == "THREADS" then args.(threads := n) else args
    case SetWord(key, w) =>
      if key == "ADDRESS" then args.(addr := w)
      else if key == "KEY" then args.(key := w)
      else if key == "CERT" then args.(cert := w)
      else args
  }

  function AssignAll(args: Arguments, assigns: seq<Assignment>): Arguments
    decreases |assigns|
  {
    if assigns == [] then args else AssignAll(Assign(args, assigns[0]), assigns[1..])
  }

  lemma AssignFirst(args: Arguments, a: Assignment, m: Meaning)
    ensures AssignAll(args, Then(a, m).assigns) == AssignAll(Assign(args, a), m.assigns)
  {
    assert ([a] + m.assigns)[1..] == m.assigns;
  }

  // ---------- Last assignment wins ----------

  /** The value of the last word assignment to the key, or the default. */
  function LastWord(assigns: seq<Assignment>, key: string, default: string): string {
    if assigns == [] then default
    else
      var a := assigns[|assigns| - 1];
      if a.SetWord? && a.key == key then a.w else LastWord(assigns[..|assigns| - 1], key, default)
  }

  function LastInt(assigns: seq<Assignment>, key: string, default: int): int {
    if assigns == [] then default
    else
      var a := assigns[|assigns| - 1];
      if a.SetInt? && a.key == key then a.n else LastInt(assigns[..|assigns| - 1], key, default)
  }

  lemma {:induction false} AssignAllSnoc(args: Arguments, assigns: seq<Assignment>, a: Assignment)
    ensures AssignAll(args, assigns + [a]) == Assign(AssignAll(args, assigns), a)
    decreases |assigns|
  {
    if assigns == [] {
      assert (assigns + [a])[1..] == [];
    } else {
      assert (assigns + [a])[1..] == assigns[1..] + [a];
      AssignAllSnoc(Assign(args, assigns[0]), assigns[1..], a);
    }
  }

  /** Each argument ends with the value of the last assignment to its key. */
  lemma {:induction false} LastAssignmentWins(args: Arguments, assigns: seq<Assignment>)
    ensures AssignAll(args, assigns) == Arguments(
      LastWord(assigns, "ADDRESS", args.addr),
      LastInt(assigns, "PORT", args.port),
      LastInt(assigns, "THREADS", args.threads),
      LastWord(assigns, "KEY", args.key),
      LastWord(assigns, "CERT", args.cert))
    decreases |assigns|
  {
    if assigns != [] {
      var n := |assigns| - 1;
      LastAssignmentWins(args, assigns[..n]);
      AssignAllSnoc(args, assigns[..n], assigns[n]);
      assert assigns[..n] + [assigns[n]] == assigns;
    }
  }

  /** Only known keys are assigned, and every word assigned is a token. */
  predicate Sensible(a: Assignment, ssl: bool) {
    match a
    case SetInt(key, n) => IntKey(key) && IsInt(n)
    case SetWord(key, w) => WordKey(key, ssl) && IsToken(w)
  }

  lemma {:induction false} ScanIsSensible(text: string, ssl: bool)
    ensures forall a :: a in Scan(text, ssl).assigns ==> Sensible(a, ssl)
    decreases |text|, 0
  {
    hide ScanInt, ScanWord, Sensible, Find, DropLine, SkipSpaces;
    var i := Find(text, '=');
    if i < |text| {
      var key, rest := text[..i], text[i + 1..];
      if key == "" {
        ScanIsSensible(rest, ssl);
      } else if IntKey(key) {
        ScanIntIsSensible(key, SkipSpaces(rest), ssl);
      } else if WordKey(key, ssl) {
        ScanWordIsSensible(key, SkipSpaces(rest), ssl);
      } else {
        ScanIsSensible(DropLine(rest), ssl);
      }
    }
  }

  lemma {:induction false} ScanIntIsSensible(key: string, s: string, ssl: bool)
    requires IntKey(key)
    ensures forall a :: a in ScanInt(key, s, ssl).assigns ==> Sensible(a, ssl)
    decreases |s|, 1
  {
    if s != "" {
      ParsedFits(s);
      ScanIsSensible(DropLine(ParseInt(s).rest), ssl);
      hide Scan, ParseInt, DropLine;
    }
  }

  lemma {:induction false} ScanWordIsSensible(key: string, s: string, ssl: bool)
    requires WordKey(key, ssl)
    requires s != "" ==> !IsSpace(s[0])
    ensures forall a :: a in ScanWord(key, s, ssl).assigns ==> Sensible(a, ssl)
    decreases |s|, 1
  {
    if s != "" {
      var n := WordLength(s);
      assert IsToken(s[..n]);
      ScanIsSensible(DropLine(s[n..]), ssl);
      hide Scan, DropLine, WordLength;
    }
  }
}
