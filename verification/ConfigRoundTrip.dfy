/**
 The printed configuration read back. Numbers always survive. A word survives exactly when it is not
 empty and has no white space in it, for a word is read after the spaces in front of it and up to the
 next one; only the last word of the file can also be left out.
 */
module ConfigRoundTrip {
  import opened ConfigText
  import ConfigReader

  // ---------- One printed line ----------

  /** A key of the file has no `=` in it, so it is found whole. */
  lemma ScanKey(key: string, value: string, more: string, ssl: bool)
    ensures var rest := SkipSpaces(value + "\n" + more);
      (IntKey(key) ==> Scan(Line(key, value) + more, ssl) == ScanInt(key, rest, ssl))
      && (WordKey(key, ssl) ==> Scan(Line(key, value) + more, ssl) == ScanWord(key, rest, ssl))
  {
    var rest := value + "\n" + more;
    var text := Line(key, value) + more;
    if IntKey(key) || WordKey(key, ssl) {
      assert text == key + ['='] + rest;
      FindOf(key, '=', rest);
      assert text[..|key|] == key && text[|key| + 1..] == rest;
      hide ScanInt, ScanWord, SkipSpaces, DropLine, Find, Line;
    }
  }

  lemma DropRestOfLine(more: string)
    ensures DropLine("\n" + more) == more
  {
    assert ("\n" + more)[1..] == more;
  }

  /** Nothing is skipped in front of a visible character. */
  lemma VisibleIsKept(s: string)
    requires s == "" || IsVisible(s[0])
    ensures SkipSpaces(s) == s
  {
    assert Leading(IsSpace, s) == 0;
    assert s[0..] == s;
    hide Leading;
  }

  /** A word ends at the first white space. */
  lemma WordEnds(w: string, rest: string)
    requires IsToken(w) && (rest == "" || IsSpace(rest[0]))
    ensures WordLength(w + rest) == |w|
  {
    hide Leading;
    assert forall i :: 0 <= i < |w| ==> IsVisible(w[i]);
    LeadingOf(IsVisible, w, rest);
  }

  /** A word in front of white space is read whole, and without spaces in front of it. */
  lemma TokenIsWhole(w: string, rest: string)
    requires IsToken(w) && (rest == "" || IsSpace(rest[0]))
    ensures SkipSpaces(w + rest) == w + rest && WordLength(w + rest) == |w|
    ensures (w + rest)[..|w|] == w && (w + rest)[|w|..] == rest
  {
    hide SkipSpaces, WordLength, Leading;
    WordEnds(w, rest);
    assert (w + rest)[0] == w[0] && IsVisible(w[0]);
    VisibleIsKept(w + rest);
  }

  /** A printed number is one assignment of that number. */
  lemma ScanPrintedInt(key: string, n: int, more: string, ssl: bool)
    requires IntKey(key) && IsInt(n)
    ensures Scan(Line(key, Decimal(n)) + more, ssl) == Then(SetInt(key, n), Scan(more, ssl))
  {
    var rest := "\n" + more;
    assert Decimal(n) + "\n" + more == Decimal(n) + rest;
    DecimalRoundTrip(n, rest);
    DropRestOfLine(more);
    ScanKey(key, Decimal(n), more, ssl);
    assert (Decimal(n) + rest)[0] == Decimal(n)[0];
    VisibleIsKept(Decimal(n) + rest);
    hide Scan, Decimal, ParseInt, SkipSpaces, DropLine, Line, IntKey;
  }

  /** A printed token is one assignment of that token. */
  lemma ScanPrintedToken(key: string, w: string, more: string, ssl: bool)
    requires WordKey(key, ssl) && IsToken(w)
    ensures Scan(Line(key, w) + more, ssl) == Then(SetWord(key, w), Scan(more, ssl))
  {
    var rest := "\n" + more;
    assert w + "\n" + more == w + rest;
    TokenIsWhole(w, rest);
    DropRestOfLine(more);
    ScanKey(key, w, more, ssl);
    hide Scan, WordLength, SkipSpaces, DropLine, Line, WordKey;
    assert w + rest != "";
  }

  /** Whatever the value, a key with something visible after it on this line or later is assigned. */
  lemma ScanPrintedWord(key: string, w: string, more: string, ssl: bool)
    requires WordKey(key, ssl) && !AllSpaces(w + more)
    ensures var as' := Scan(Line(key, w) + more, ssl).assigns;
      as' != [] && as'[0].SetWord? && as'[0].key == key
  {
    ScanKey(key, w, more, ssl);
    var text := w + "\n" + more;
    var i :| 0 <= i < |w + more| && !IsSpace((w + more)[i]);
    assert !IsSpace(text[if i < |w| then i else i + 1]);
    assert SkipSpaces(text) != "";
    hide Scan, WordLength, SkipSpaces, DropLine, Line, AllSpaces, WordKey;
  }

  /** A last word of nothing but spaces is not assigned. */
  lemma ScanPrintedSpaces(key: string, w: string, ssl: bool)
    requires WordKey(key, ssl) && AllSpaces(w)
    ensures Scan(Line(key, w) + "", ssl) == Meaning([], false)
  {
    ScanKey(key, w, "", ssl);
    assert SkipSpaces(w + "\n" + "") == "";
    hide Scan, SkipSpaces, DropLine, Line, AllSpaces, WordKey;
  }

  /** A value that is no number, where a number is expected, is where reading gets stuck, whatever the
      rest of the file says. */
  lemma MalformedIsStuck(key: string, value: string, more: string, ssl: bool)
    requires IntKey(key)
    requires value != "" && IsVisible(value[0]) && !IsDigit(value[0]) && value[0] != '-' && value[0] != '+'
    ensures Scan(Line(key, value) + more, ssl) == Meaning([SetInt(key, 0)], true)
  {
    hide Scan, SkipSpaces, DropLine, Line, IntKey, Leading;
    var rest := value + "\n" + more;
    ScanKey(key, value, more, ssl);
    assert rest[0] == value[0];
    VisibleIsKept(rest);
    NotANumber(rest);
  }

  lemma NotANumber(s: string)
    requires s != "" && !IsDigit(s[0]) && s[0] != '-' && s[0] != '+'
    ensures ParseInt(s) == Parsed(0, false, s)
  {
    assert s[0..] == s;
  }

  /** A number that does not fit is stored as the nearest one that does, and reading gets stuck too. */
  lemma TooLargeIsStuck(key: string, n: int, more: string, ssl: bool)
    requires IntKey(key) && !IsInt(n)
    ensures Scan(Line(key, Decimal(n)) + more, ssl) == Meaning([SetInt(key, if n > 0 then INT_MAX else INT_MIN)], true)
  {
    hide Scan, SkipSpaces, DropLine, Line, IntKey, Leading, Decimal, ParseInt;
    var rest := "\n" + more;
    assert Decimal(n) + "\n" + more == Decimal(n) + rest;
    ScanKey(key, Decimal(n), more, ssl);
    DoesNotFit(n, rest);
    assert (Decimal(n) + rest)[0] == Decimal(n)[0];
    VisibleIsKept(Decimal(n) + rest);
  }

  lemma DoesNotFit(n: int, rest: string)
    requires !IsInt(n) && rest != "" && !IsDigit(rest[0])
    ensures ParseInt(Decimal(n) + rest) == Parsed(if n > 0 then INT_MAX else INT_MIN, false, rest)
    ensures Decimal(n) != "" && IsVisible(Decimal(n)[0])
  {
    hide DigitsOf, ValueOf, Leading;
    var d := DigitsOf(if n < 0 then -n else n);
    DigitsRoundTrip(if n < 0 then -n else n);
    LeadingOf(IsDigit, d, rest);
    assert (d + rest)[..|d|] == d && (d + rest)[|d|..] == rest;
    assert IsDigit(d[0]) && (d + rest)[0] == d[0];
    if n < 0 {
      assert (Decimal(n) + rest)[1..] == d + rest;
    }
  }

  /** What follows a number on its line is dropped, whatever it is. */
  lemma ScanCutInt(key: string, n: int, tail: string, more: string, ssl: bool)
    requires IntKey(key) && IsInt(n) && '\n' !in tail && (tail != "" ==> !IsDigit(tail[0]))
    ensures Scan(Line(key, Decimal(n) + tail) + more, ssl) == Then(SetInt(key, n), Scan(more, ssl))
  {
    var rest := tail + ['\n'] + more;
    assert (Decimal(n) + tail) + "\n" + more == Decimal(n) + rest;
    DecimalRoundTrip(n, rest);
    FindOf(tail, '\n', more);
    assert DropLine(rest) == more;
    ScanKey(key, Decimal(n) + tail, more, ssl);
    assert (Decimal(n) + rest)[0] == Decimal(n)[0];
    VisibleIsKept(Decimal(n) + rest);
    hide Scan, Decimal, ParseInt, SkipSpaces, DropLine, Line, IntKey;
  }

  // ---------- Lines that assign nothing ----------

  /** A line with another key is skipped, to its end and no further; an empty key is skipped alone. */
  lemma OtherLineIsSkipped(key: string, value: string, more: string, ssl: bool)
    requires '=' !in key && !IntKey(key) && !WordKey(key, ssl) && '\n' !in value
    ensures Scan(Line(key, value) + more, ssl) ==
      if key == "" then Scan(value + "\n" + more, ssl) else Scan(more, ssl)
  {
    var rest := value + ['\n'] + more;
    var text := Line(key, value) + more;
    assert text == key + ['='] + rest && value + "\n" + more == rest;
    FindOf(key, '=', rest);
    assert text[..|key|] == key && text[|key| + 1..] == rest;
    FindOf(value, '\n', more);
    assert DropLine(rest) == more;
    hide ScanInt, ScanWord, SkipSpaces, DropLine, Find, Line;
  }

  /** A key is all there is up to the next `=`, so a line without one, a comment or even an empty one,
      makes a key of itself and the key on the next line: that line is skipped with it. */
  lemma CommentSwallowsNextLine(comment: string, key: string, value: string, more: string, ssl: bool)
    requires '=' !in comment && '=' !in key && '\n' !in value
    ensures Scan(comment + "\n" + Line(key, value) + more, ssl) == Scan(more, ssl)
  {
    var both := comment + "\n" + key;
    assert both[|comment|] == '\n';
    assert comment + "\n" + Line(key, value) + more == Line(both, value) + more;
    hide Scan, Line;
    OtherLineIsSkipped(both, value, more, ssl);
  }

  /** So the reader does not come to the end of a file that gives a word for the port. */
  lemma WordForPortNeverEnds(init: Arguments, ssl: bool)
    ensures !ConfigReader.Ends(ConfigReader.Reader(ConfigReader.Opened("PORT=x\n"), "", init), ssl)
  {
    hide Scan, ConfigReader.Ends;
    MalformedIsStuck("PORT", "x", "", ssl);
    assert Line("PORT", "x") + "" == "PORT=x\n";
    ConfigReader.ReadingEndsIff("PORT=x\n", init, ssl);
  }

  // ---------- Every word read is a token ----------

  lemma {:induction false} LastWordIsToken(assigns: seq<Assignment>, key: string, default: string, ssl: bool)
    requires forall a :: a in assigns ==> Sensible(a, ssl)
    requires exists a :: a in assigns && a.SetWord? && a.key == key
    ensures IsToken(LastWord(assigns, key, default))
  {
    var n := |assigns| - 1;
    var a := assigns[n];
    assert a in assigns && Sensible(a, ssl);
    if !(a.SetWord? && a.key == key) {
      assert assigns[..n] + [a] == assigns;
      LastWordIsToken(assigns[..n], key, default, ssl);
    }
  }

  /** What is read for a key that is assigned at all. */
  lemma AssignedIsToken(text: string, key: string, init: Arguments, ssl: bool)
    requires WordKey(key, ssl)
    requires exists a :: a in Scan(text, ssl).assigns && a.SetWord? && a.key == key
    ensures var r := Read(text, init, ssl);
      IsToken(if key == "ADDRESS" then r.addr else if key == "KEY" then r.key else r.cert)
  {
    var assigns := Scan(text, ssl).assigns;
    ScanIsSensible(text, ssl);
    LastAssignmentWins(init, assigns);
    hide Scan, AssignAll, LastWord, IsToken;
    var default := if key == "ADDRESS" then init.addr else if key == "KEY" then init.key else init.cert;
    LastWordIsToken(assigns, key, default, ssl);
  }

  // ---------- The whole file ----------

  /** What reading a file leaves in the arguments, as far as it gets. */
  function Read(text: string, init: Arguments, ssl: bool): Arguments {
    AssignAll(init, Scan(text, ssl).assigns)
  }

  /** Without SSL there is neither key nor certificate to compare. */
  predicate Same(a: Arguments, b: Arguments, ssl: bool) {
    a.addr == b.addr && a.port == b.port && a.threads == b.threads && (ssl ==> a.key == b.key && a.cert == b.cert)
  }

  /** Reading ends and restores the arguments. */
  predicate Restores(args: Arguments, init: Arguments, ssl: bool) {
    var text := Print(args, ssl);
    !Scan(text, ssl).stuck && Same(Read(text, init, ssl), args, ssl)
  }

  /** The key and certificate that survive. */
  predicate FilesReadable(args: Arguments, init: Arguments, ssl: bool) {
    ssl ==> IsToken(args.key) && (IsToken(args.cert) || (AllSpaces(args.cert) && args.cert == init.cert))
  }

  lemma ReadThen(text: string, a: Assignment, more: string, init: Arguments, ssl: bool)
    requires Scan(text, ssl) == Then(a, Scan(more, ssl))
    ensures Read(text, init, ssl) == Read(more, Assign(init, a), ssl)
    ensures Scan(text, ssl).stuck == Scan(more, ssl).stuck
  {
    AssignFirst(init, a, Scan(more, ssl));
    hide Scan, AssignAll, Assign;
  }

  /** A word line in front of something visible: what is read for its key is the word if that is a
      token, and some other token if not. */
  lemma ReadPrintedWord(key: string, w: string, more: string, init: Arguments, ssl: bool)
    requires WordKey(key, ssl) && !AllSpaces(w + more)
    ensures var text := Line(key, w) + more; var r := Read(text, init, ssl);
      if IsToken(w) then
        r == Read(more, Assign(init, SetWord(key, w)), ssl) && Scan(text, ssl).stuck == Scan(more, ssl).stuck
      else
        (if key == "ADDRESS" then r.addr else if key == "KEY" then r.key else r.cert) != w
  {
    var text := Line(key, w) + more;
    if IsToken(w) {
      ScanPrintedToken(key, w, more, ssl);
      hide Scan, Line, Assign, IsToken, WordKey;
      ReadThen(text, SetWord(key, w), more, init, ssl);
      hide Read;
    } else {
      ScanPrintedWord(key, w, more, ssl);
      var as' := Scan(text, ssl).assigns;
      assert as'[0] in as';
      AssignedIsToken(text, key, init, ssl);
      hide Scan, Line, IsToken, WordKey, Read;
    }
  }

  /** The certificate line, with nothing after it. */
  lemma ReadPrintedCert(w: string, init: Arguments)
    ensures var text := Line("CERT", w) + ""; var r := Read(text, init, true);
      if IsToken(w) then r == init.(cert := w) && !Scan(text, true).stuck
      else if AllSpaces(w) then r == init && !Scan(text, true).stuck
      else r.cert != w
  {
    hide Scan, Line, AssignAll;
    if AllSpaces(w) {
      ScanPrintedSpaces("CERT", w, true);
      SpacesAreNoToken(w);
      ReadNothing(Line("CERT", w) + "", init);
    } else {
      hide AllSpaces, IsToken, Read;
      assert w + "" == w;
      ReadPrintedWord("CERT", w, "", init, true);
      ConfigReader.ScanNothing(true);
      ReadNothing("", init.(cert := w));
    }
  }

  lemma SpacesAreNoToken(w: string)
    ensures !(IsToken(w) && AllSpaces(w))
  {
    if w != "" && AllSpaces(w) {
      assert IsSpace(w[0]);
    }
  }

  lemma ReadNothing(text: string, init: Arguments)
    requires Scan(text, true) == Meaning([], false)
    ensures Read(text, init, true) == init
  {
    hide Scan;
  }

  lemma ReadPrintedInt(key: string, n: int, more: string, init: Arguments, ssl: bool)
    requires IntKey(key) && IsInt(n)
    ensures var text := Line(key, Decimal(n)) + more;
      Read(text, init, ssl) == Read(more, Assign(init, SetInt(key, n)), ssl)
      && Scan(text, ssl).stuck == Scan(more, ssl).stuck
  {
    ScanPrintedInt(key, n, more, ssl);
    ReadThen(Line(key, Decimal(n)) + more, SetInt(key, n), more, init, ssl);
    hide Scan, Line, Assign, Read, Decimal;
  }

  /** What a build without SSL prints after the address, and what one with SSL does. */
  function AfterThreads(args: Arguments, ssl: bool): string {
    if ssl then Line("KEY", args.key) + (Line("CERT", args.cert) + "") else ""
  }

  lemma PrintedLines(args: Arguments, ssl: bool)
    ensures Print(args, ssl) ==
      Line("PORT", Decimal(args.port)) + (Line("ADDRESS", args.addr)
      + (Line("THREADS", Decimal(args.threads)) + AfterThreads(args, ssl)))
  {
    assert Line("CERT", args.cert) + "" == Line("CERT", args.cert);
    hide Line, Decimal;
  }

  /** Key and certificate. */
  lemma ReadPrintedFiles(args: Arguments, init: Arguments, ssl: bool)
    ensures var text := AfterThreads(args, ssl); var r := Read(text, init, ssl);
      (!Scan(text, ssl).stuck && (ssl ==> r.key == args.key && r.cert == args.cert)
       <==> FilesReadable(args, init, ssl))
      && (FilesReadable(args, init, ssl) ==>
            r == if ssl then init.(key := args.key, cert := args.cert) else init)
  {
    if ssl {
      var more := Line("CERT", args.cert) + "";
      assert !IsSpace((args.key + more)[|args.key|]);
      ReadPrintedWord("KEY", args.key, more, init, true);
      hide Scan, Line, Read;
      if IsToken(args.key) {
        ReadPrintedCert(args.cert, init.(key := args.key));
      }
    }
  }

  /** Reading what was printed ends and restores the arguments exactly when every word is a token, but
      for a certificate of nothing but spaces that was there to begin with. */
  lemma RoundTripIff(args: Arguments, init: Arguments, ssl: bool)
    requires IsInt(args.port) && IsInt(args.threads)
    ensures Restores(args, init, ssl) <==> IsToken(args.addr) && FilesReadable(args, init, ssl)
  {
    var files := AfterThreads(args, ssl);
    var threads := Line("THREADS", Decimal(args.threads)) + files;
    var addr := Line("ADDRESS", args.addr) + threads;
    var init1 := init.(port := args.port);
    var init2 := init1.(addr := args.addr);
    PrintedLines(args, ssl);
    ReadPrintedInt("PORT", args.port, addr, init, ssl);
    assert !IsSpace((args.addr + threads)[|args.addr|]);
    ReadPrintedWord("ADDRESS", args.addr, threads, init1, ssl);
    ReadPrintedInt("THREADS", args.threads, files, init2, ssl);
    ReadPrintedFiles(args, init2.(threads := args.threads), ssl);
    hide Scan, Line, Read, Print, Decimal, IsToken, AllSpaces, AfterThreads;
  }

  /** A printed file assigns every argument once, in the order in which they are printed. */
  lemma PrintedAssignments(args: Arguments, ssl: bool)
    requires IsInt(args.port) && IsInt(args.threads) && IsToken(args.addr)
    requires ssl ==> IsToken(args.key) && IsToken(args.cert)
    ensures Scan(Print(args, ssl), ssl) == Meaning(
      [SetInt("PORT", args.port), SetWord("ADDRESS", args.addr), SetInt("THREADS", args.threads)]
        + (if ssl then [SetWord("KEY", args.key), SetWord("CERT", args.cert)] else []), false)
  {
    hide Line, Print, Decimal, IsToken, ScanInt, ScanWord;
    var files := AfterThreads(args, ssl);
    var threads := Line("THREADS", Decimal(args.threads)) + files;
    var addr := Line("ADDRESS", args.addr) + threads;
    assert Scan("", ssl) == Meaning([], false);
    hide Scan;
    PrintedLines(args, ssl);
    ScanPrintedInt("PORT", args.port, addr, ssl);
    ScanPrintedToken("ADDRESS", args.addr, threads, ssl);
    ScanPrintedInt("THREADS", args.threads, files, ssl);
    if ssl {
      ScanPrintedToken("KEY", args.key, Line("CERT", args.cert) + "", ssl);
      ScanPrintedToken("CERT", args.cert, "", ssl);
    }
  }

  /** So a plain build restores every address without white space, and an address with a space in it
      comes back cut off at the space. */
  lemma AddressIsCutAtASpace(args: Arguments, init: Arguments, w: string, tail: string)
    requires IsInt(args.port) && IsInt(args.threads)
    requires IsToken(w) && '\n' !in tail && args.addr == w + (" " + tail)
    ensures var text := Print(args, false);
      !Scan(text, false).stuck
      && Read(text, init, false) == init.(addr := w, port := args.port, threads := args.threads)
  {
    var threads := Line("THREADS", Decimal(args.threads)) + "";
    var addr := Line("ADDRESS", args.addr) + threads;
    var init1 := init.(port := args.port);
    PrintedLines(args, false);
    ReadPrintedInt("PORT", args.port, addr, init, false);
    ScanCutWord("ADDRESS", w, tail, threads, false);
    ReadThen(addr, SetWord("ADDRESS", w), threads, init1, false);
    ReadPrintedInt("THREADS", args.threads, "", init1.(addr := w), false);
    assert Scan("", false) == Meaning([], false);
    hide Scan, Line, Print, Decimal;
  }

  lemma ScanCutWord(key: string, w: string, tail: string, more: string, ssl: bool)
    requires WordKey(key, ssl) && IsToken(w) && '\n' !in tail
    ensures Scan(Line(key, w + (" " + tail)) + more, ssl) == Then(SetWord(key, w), Scan(more, ssl))
  {
    var cut := " " + tail;
    var rest := cut + ['\n'] + more;
    assert (w + cut) + "\n" + more == w + rest;
    TokenIsWhole(w, rest);
    FindOf(cut, '\n', more);
    assert DropLine(rest) == more;
    ScanKey(key, w + cut, more, ssl);
    hide Scan, WordLength, SkipSpaces, DropLine, Line, WordKey;
    assert w + rest != "";
  }
}
