/**
 The envelope around every message: the factory builds it, the parser reads its header, and a message
 that arrives from a browser is stamped before it is echoed and then parsed in its stamped form.
 */
module Envelope {
  import opened Basics
  import opened Json
  import opened Dispatcher

  // ---------- Names ----------

  datatype Control = Status | Config | Open | Close | Custom | Error

  /** What a message is: data, or one of the kinds of control. */
  datatype Kind = Data | Controlling(control: Control)

  function ControlName(c: Control): CString {
    match c
    case Status => "status"
    case Config => "config"
    case Close => "close"
    case Open => "open"
    case Error => "error"
    case Custom => "custom"
  }

  function ControlOf(name: string): Option<Control> {
    if name == "status" then Some(Status)
    else if name == "error" then Some(Error)
    else if name == "open" then Some(Open)
    else if name == "close" then Some(Close)
    else if name == "config" then Some(Config)
    else if name == "custom" then Some(Custom)
    else None
  }

  /** The two tables, written apart from each other, agree. */
  lemma ControlNamesAgree(c: Control, name: string)
    ensures ControlOf(name) == Some(c) <==> name == ControlName(c)
    ensures ControlName(Open) == "open" && ControlName(Close) == "close" && ControlName(Status) == "status"
    ensures ControlName(Config) == "config" && ControlName(Custom) == "custom" && ControlName(Error) == "error"
  {
  }

  // ---------- Building ----------

  /** What the overloads of `create` take after the app and the control. */
  datatype Payload =
    | Nothing
    | Int(n: int)
    | Text(s: string)
    | Bytes(bytes: seq<byte>)
    | Tree(v: Value)
    | Texts(ss: seq<string>)

  function SeenAll(ss: seq<string>): seq<Value> {
    seq(|ss|, i requires 0 <= i < |ss| => Str(Seen(ss[i])))
  }

  /** The payload as a value; texts are passed on as C strings. */
  function PayloadValue(p: Payload): Value
    requires !p.Nothing?
  {
    match p
    case Int(n) => Number(n)
    case Text(s) => Str(Seen(s))
    case Bytes(bytes) => Array(AsNumbers(bytes))
    case Tree(v) => v
    case Texts(ss) => Array(SeenAll(ss))
  }

  /** The members of a message of the server, whose user id is zero. */
  function Message(name: CString, mid: nat, now: nat, kind: Kind, p: Payload): seq<Member> {
    [Member("app", Str(name))] + ([Member("smid", Number(mid))] + ([Member("uid", Number(0))]
    + ([Member("time", Number(now))] + (KindMembers(kind) + PayloadMembers(p)))))
  }

  function KindMembers(kind: Kind): seq<Member> {
    match kind
    case Data => [Member("type", Str("data"))]
    case Controlling(c) => [Member("type", Str("control")), Member("ctype", Str(ControlName(c)))]
  }

  function PayloadMembers(p: Payload): seq<Member> {
    if p.Nothing? then [] else [Member("data", PayloadValue(p))]
  }

  /** `get_mid` and `user_id`: counters that live as long as the program. */
  class Counters {
    var mid: nat
    var uid: nat

    constructor ()
      ensures mid == 0 && uid == 1
    {
      mid, uid := 0, 1;
    }

    method GetMid() returns (r: nat)
      modifies this`mid
      ensures r == old(mid) && mid == r + 1
    {
      r := mid;
      mid := mid + 1;
    }

    method UserId() returns (r: nat)
      modifies this`uid
      ensures r == old(uid) && uid == r + 1
    {
      r := uid;
      uid := uid + 1;
    }
  }

  /** An object being written, one member after another. */
  class Writer {
    var members: seq<Member>

    constructor ()
      ensures members == []
    {
      members := [];
    }

    method Write(key: string, value: Value)
      modifies this
      ensures members == old(members) + [Member(key, value)]
    {
      members := members + [Member(key, value)];
    }

    /** What `make_data_obj` and `make_control_obj` have in common. */
    method WriteHeader(apps: Apps, counters: Counters, app: AppId, now: nat)
      requires app in apps.apps
      modifies this, counters`mid
      ensures counters.mid == old(counters.mid) + 1
      ensures members == old(members) +
        [Member("app", Str(apps.apps[app].name)), Member("smid", Number(old(counters.mid))),
         Member("uid", Number(0)), Member("time", Number(now))]
    {
      var entry := apps.Find(app);
      Write("app", Str(entry.value.name));
      var mid := counters.GetMid();
      Write("smid", Number(mid));
      Write("uid", Number(0));
      Write("time", Number(now));
    }
  }

  /** `Factory::create`. An app that is not registered has no name to write. */
  method Create(apps: Apps, counters: Counters, app: AppId, now: nat, kind: Kind, p: Payload) returns (r: Value)
    requires app in apps.apps
    modifies counters`mid
    ensures counters.mid == old(counters.mid) + 1
    ensures r == Object(Message(apps.apps[app].name, old(counters.mid), now, kind, p))
  {
    var writer := new Writer();
    writer.WriteHeader(apps, counters, app, now);
    match kind {
      case Data =>
        writer.Write("type", Str("data"));
      case Controlling(c) =>
        writer.Write("type", Str("control"));
        writer.Write("ctype", Str(ControlName(c)));
    }
    ghost var header, name := writer.members, apps.apps[app].name;
    assert header + PayloadMembers(p) == Message(name, old(counters.mid), now, kind, p) by {
      hide PayloadMembers, ControlName;
    }
    if p.Nothing? {
      assert header + PayloadMembers(p) == header;
      return Object(writer.members);
    }
    var value;
    match p {
      case Int(n) => value := Number(n);
      case Text(s) => value := Str(Seen(s));
      case Bytes(bytes) => value := MakeDataArray(bytes);
      case Tree(v) => value := v;
      case Texts(ss) => value := MakeStringArray(ss);
    }
    writer.Write("data", value);
    r := Object(writer.members);
  }

  method MakeStringArray(ss: seq<string>) returns (r: Value)
    ensures r == Array(SeenAll(ss))
  {
    var items: seq<Value> := [];
    for i := 0 to |ss|
      invariant items == SeenAll(ss[..i])
    {
      items := items + [Str(Seen(ss[i]))];
    }
    assert ss[..|ss|] == ss;
    r := Array(items);
  }

  // ---------- Parsing ----------

  datatype MainData = MainData(app: AppId, time: nat, isControl: bool, control: Control)

  /** The header of a message: the app by its name, the time and the kind. */
  datatype Header = Header(name: CString, time: nat, kind: Kind)

  function KindOf(members: seq<Member>): Option<Kind>
    requires Lookup(members, "type").Some? && Lookup(members, "type").value.Str?
  {
    var t := Seen(Lookup(members, "type").value.s);
    if t == "data" then Some(Data)
    else if t != "control" then None
    else match Lookup(members, "ctype")
      case Some(Str(c)) =>
        var control := ControlOf(Seen(c));
        if control.None? then None else Some(Controlling(control.value))
      case _ => None
  }

  /** App, time and type are there with the right types. */
  predicate WellFormed(members: seq<Member>) {
    var app, time, kind := Lookup(members, "app"), Lookup(members, "time"), Lookup(members, "type");
    app.Some? && app.value.Str? && time.Some? && IsUint64(time.value) && kind.Some? && kind.value.Str?
  }

  /** The header, if the members have one. */
  function ReadHeader(members: seq<Member>): Option<Header> {
    if !WellFormed(members) then None
    else
      var kind := KindOf(members);
      if kind.None? then None
      else
        Some(Header(Seen(Lookup(members, "app").value.s), Lookup(members, "time").value.n, kind.value))
  }

  /** `parser_main` succeeds: there is a header, and an app of that name. */
  predicate Accepts(apps: Registry, doc: Value) {
    doc.Object? && ReadHeader(doc.members).Some? && Named(apps, ReadHeader(doc.members).value.name)
  }

  /** What it may then have stored. The control of a data message is left as it was. */
  predicate Describes(apps: Registry, doc: Value, data: MainData) {
    Accepts(apps, doc)
    && var h := ReadHeader(doc.members).value;
      data.app in apps && apps[data.app].name == h.name && data.time == h.time
      && data.isControl == h.kind.Controlling? && (h.kind.Controlling? ==> data.control == h.kind.control)
  }

  /** `check_message`. */
  method CheckMessage(doc: Value) returns (ok: bool)
    ensures ok <==> doc.Object? && WellFormed(doc.members)
  {
    if !doc.Object? {
      return false;
    }
    var app := Lookup(doc.members, "app");
    if app.None? || !app.value.Str? {
      return false;
    }
    var time := Lookup(doc.members, "time");
    if time.None? || !IsUint64(time.value) {
      return false;
    }
    var kind := Lookup(doc.members, "type");
    ok := kind.Some? && kind.value.Str?;
  }

  /** `get_type`. */
  method GetType(members: seq<Member>, data: MainData) returns (ok: bool, r: MainData)
    requires Lookup(members, "type").Some? && Lookup(members, "type").value.Str?
    ensures ok == KindOf(members).Some?
    ensures ok ==> r == data.(isControl := KindOf(members).value.Controlling?, control := r.control)
    ensures ok ==> r.control == match KindOf(members).value { case Data => data.control case Controlling(c) => c }
  {
    var name := Seen(Lookup(members, "type").value.s);
    if name == "data" {
      return true, data.(isControl := false);
    }
    if name != "control" {
      return false, data;
    }
    r := data.(isControl := true);
    var ctype := Lookup(members, "ctype");
    if ctype.None? || !ctype.value.Str? {
      return false, r;
    }
    var control := ControlOf(Seen(ctype.value.s));
    if control.None? {
      return false, r;
    }
    return true, r.(control := control.value);
  }

  /** `parser_main`, on an object whose fields are filled in as far as it gets. */
  method ParserMain(apps: Apps, doc: Value, init: MainData) returns (ok: bool, data: MainData)
    requires WellKeyed(apps.apps)
    ensures ok <==> Accepts(apps.apps, doc)
    ensures ok ==> Describes(apps.apps, doc, data)
    ensures ok && !data.isControl ==> data.control == init.control
  {
    data := init;
    ok := CheckMessage(doc);
    if !ok {
      return;
    }
    var found := apps.FindName(Seen(Lookup(doc.members, "app").value.s));
    if found.None? {
      return false, data;
    }
    data := data.(app := found.value.app);
    ok, data := GetType(doc.members, data);
    if ok {
      data := data.(time := Lookup(doc.members, "time").value.n);
    }
  }

  /** There is a text, and up to its first zero character it is `s`. */
  predicate Reads(v: Option<Value>, s: CString) {
    v.Some? && v.value.Str? && Seen(v.value.s) == s
  }

  /** A header is read exactly when the four members say so: a text for the app, a number of 64 bits for
      the time, and for the type either data, whatever else there is, or control together with the
      name of one of the controls. */
  lemma HeaderIff(members: seq<Member>, h: Header)
    ensures ReadHeader(members) == Some(h) <==>
      && Reads(Lookup(members, "app"), h.name)
      && Lookup(members, "time") == Some(Number(h.time)) && h.time < 0x1_0000_0000_0000_0000
      && Reads(Lookup(members, "type"), if h.kind.Data? then "data" else "control")
      && (h.kind.Controlling? ==> Reads(Lookup(members, "ctype"), ControlName(h.kind.control)))
  {
    hide Lookup, Seen, ControlOf, ControlName;
    forall c, name {:trigger ControlOf(name), ControlName(c)}
      ensures ControlOf(name) == Some(c) <==> name == ControlName(c)
    {
      ControlNamesAgree(c, name);
    }
  }

  // ---------- Building and parsing ----------

  lemma SeenOfCString(s: string)
    requires '\0' !in s
    ensures Seen(s) == s
  {
  }

  lemma KindLookups(kind: Kind, p: Payload)
    ensures var m := KindMembers(kind) + PayloadMembers(p);
      Lookup(m, "type") == Some(Str(if kind.Data? then "data" else "control"))
      && Lookup(m, "ctype") == (if kind.Data? then None else Some(Str(ControlName(kind.control))))
      && Lookup(m, "data") == (if p.Nothing? then None else Some(PayloadValue(p)))
  {
    var payload := PayloadMembers(p);
    assert Lookup(payload, "ctype") == None;
    assert Lookup(payload, "data") == if p.Nothing? then None else Some(PayloadValue(p));
    hide PayloadMembers, PayloadValue, ControlName;
    if kind.Controlling? {
      var ctype := Member("ctype", Str(ControlName(kind.control)));
      assert KindMembers(kind) + payload == [Member("type", Str("control"))] + ([ctype] + payload);
      LookupCons(Member("type", Str("control")), [ctype] + payload);
      LookupCons(ctype, payload);
    } else {
      LookupCons(Member("type", Str("data")), payload);
    }
  }

  /** The members of a built message, one by one. */
  lemma MessageLookups(name: CString, mid: nat, now: nat, kind: Kind, p: Payload)
    ensures var m := Message(name, mid, now, kind, p);
      Lookup(m, "app") == Some(Str(name)) && Lookup(m, "smid") == Some(Number(mid))
      && Lookup(m, "uid") == Some(Number(0)) && Lookup(m, "time") == Some(Number(now))
      && Lookup(m, "type") == Some(Str(if kind.Data? then "data" else "control"))
      && Lookup(m, "ctype") == (if kind.Data? then None else Some(Str(ControlName(kind.control))))
      && Lookup(m, "data") == (if p.Nothing? then None else Some(PayloadValue(p)))
  {
    KindLookups(kind, p);
    hide KindMembers, PayloadMembers, PayloadValue, ControlName;
    var m5 := KindMembers(kind) + PayloadMembers(p);
    var m4 := [Member("time", Number(now))] + m5;
    var m3 := [Member("uid", Number(0))] + m4;
    var m2 := [Member("smid", Number(mid))] + m3;
    LookupCons(Member("app", Str(name)), m2);
    LookupCons(Member("smid", Number(mid)), m3);
    LookupCons(Member("uid", Number(0)), m4);
    LookupCons(Member("time", Number(now)), m5);
    hide Lookup;
  }

  lemma MessageKind(name: CString, mid: nat, now: nat, kind: Kind, p: Payload)
    ensures var m := Message(name, mid, now, kind, p);
      Lookup(m, "type").Some? && Lookup(m, "type").value.Str? && KindOf(m) == Some(kind)
  {
    MessageLookups(name, mid, now, kind, p);
    hide Message, Lookup, ControlOf, ControlName;
    if kind.Controlling? {
      var c := kind.control;
      SeenOfCString("control");
      SeenOfCString(ControlName(c));
      ControlNamesAgree(c, ControlName(c));
    } else {
      SeenOfCString("data");
    }
    hide Seen;
  }

  /** A message of a registered app has the header it was built with. */
  lemma MessageHeader(name: CString, mid: nat, now: nat, kind: Kind, p: Payload)
    requires IsUint64(Number(now))
    ensures ReadHeader(Message(name, mid, now, kind, p)) == Some(Header(name, now, kind))
  {
    MessageLookups(name, mid, now, kind, p);
    MessageKind(name, mid, now, kind, p);
    SeenOfCString(name);
    hide Message, Lookup, Seen, KindOf, ControlName, PayloadValue;
  }

  /** Whatever the parser finds for a message of a registered app is what it was built with, for every
      app, exactly when the names of the apps are distinct. */
  lemma EnvelopeRoundTripIff(apps: Registry)
    requires WellKeyed(apps)
    ensures DistinctNames(apps) <==>
      forall app, mid: nat, now: nat, kind, p, data ::
        app in apps && IsUint64(Number(now))
        && Describes(apps, Object(Message(apps[app].name, mid, now, kind, p)), data) ==>
          data.app == app && data.time == now && data.isControl == kind.Controlling?
          && (kind.Controlling? ==> data.control == kind.control)
  {
    if DistinctNames(apps) {
      forall app, mid: nat, now: nat, kind, p, data | app in apps && IsUint64(Number(now))
        && Describes(apps, Object(Message(apps[app].name, mid, now, kind, p)), data)
        ensures data.app == app && data.time == now && data.isControl == kind.Controlling?
                && (kind.Controlling? ==> data.control == kind.control)
      {
        MessageHeader(apps[app].name, mid, now, kind, p);
      }
    } else {
      var a, b :| a in apps && b in apps && apps[a].name == apps[b].name && a != b;
      MessageHeader(apps[a].name, 0, 0, Data, Nothing);
      var doc, data := Object(Message(apps[a].name, 0, 0, Data, Nothing)), MainData(b, 0, false, Status);
      assert Describes(apps, doc, data);
    }
  }

  /** And it is always accepted. */
  lemma BuiltIsAccepted(apps: Registry, app: AppId, mid: nat, now: nat, kind: Kind, p: Payload)
    requires app in apps && IsUint64(Number(now))
    ensures Accepts(apps, Object(Message(apps[app].name, mid, now, kind, p)))
  {
    MessageHeader(apps[app].name, mid, now, kind, p);
  }

  // ---------- Stamping ----------

  /** What `add_mid<true>` makes of an object. */
  function Stamped(members: seq<Member>, mid: nat, now: nat): seq<Member>
    requires Lookup(members, "time").Some?
  {
    LookupAppended(members, Member("smid", Number(mid)), "time");
    LookupAppended(members + [Member("smid", Number(mid))], Member("echoed", Bool(true)), "time");
    Overwrite(members + [Member("smid", Number(mid))] + [Member("echoed", Bool(true))], "time", Number(now))
  }

  lemma {:induction false} OverwriteAt(members: seq<Member>, i: nat, key: string, value: Value)
    requires i < |members| && members[i].key == key && forall j :: 0 <= j < i ==> members[j].key != key
    ensures Lookup(members, key).Some? && Overwrite(members, key, value) == members[i := Member(key, value)]
    decreases i
  {
    if i > 0 {
      OverwriteAt(members[1..], i - 1, key, value);
      assert [members[0]] + members[1..][i - 1 := Member(key, value)] == members[i := Member(key, value)];
    } else {
      assert [Member(key, value)] + members[1..] == members[0 := Member(key, value)];
    }
  }

  /** The document, changed in place. */
  class Document {
    var members: seq<Member>

    constructor (members: seq<Member>)
      ensures this.members == members
    {
      this.members := members;
    }

    method AddMember(key: string, value: Value)
      modifies this
      ensures members == old(members) + [Member(key, value)]
    {
      members := members + [Member(key, value)];
    }

    method Assign(key: string, value: Value)
      requires Lookup(members, key).Some?
      modifies this
      ensures members == Overwrite(old(members), key, value)
    {
      var i := 0;
      while members[i].key != key
        invariant i < |members| && Lookup(members[i..], key).Some? && unchanged(this)
        invariant forall j :: 0 <= j < i ==> members[j].key != key
        decreases |members| - i
      {
        assert members[i..][1..] == members[i + 1..];
        i := i + 1;
      }
      OverwriteAt(members, i, key, value);
      members := members[i := Member(key, value)];
    }

    /** `add_mid<true>`: two members are added, then the time is overwritten with `operator[]`. That
        asserts that there is a member of this name, so without one the program stops. */
    method AddMid(counters: Counters, now: nat) returns (stops: bool)
      modifies this, counters`mid
      ensures counters.mid == old(counters.mid) + 1
      ensures stops <==> Lookup(old(members), "time").None?
      ensures !stops ==> members == Stamped(old(members), old(counters.mid), now)
      ensures stops ==>
        members == old(members) + [Member("smid", Number(old(counters.mid)))] + [Member("echoed", Bool(true))]
    {
      LookupAppended(members, Member("smid", Number(counters.mid)), "time");
      LookupAppended(members + [Member("smid", Number(counters.mid))], Member("echoed", Bool(true)), "time");
      var mid := counters.GetMid();
      AddMember("smid", Number(mid));
      AddMember("echoed", Bool(true));
      if Lookup(members, "time").None? {
        return true;
      }
      Assign("time", Number(now));
      stops := false;
    }
  }

  /** Every key but three is looked up as before; the time reads as the server's; and a number or mark
      of the client's own hides the server's. */
  lemma StampedLookup(members: seq<Member>, mid: nat, now: nat, key: string)
    requires Lookup(members, "time").Some?
    ensures Lookup(Stamped(members, mid, now), key) ==
      if key == "time" then Some(Number(now))
      else if Lookup(members, key).Some? then Lookup(members, key)
      else if key == "smid" then Some(Number(mid))
      else if key == "echoed" then Some(Bool(true))
      else None
  {
    var smid, echoed := Member("smid", Number(mid)), Member("echoed", Bool(true));
    var more := members + [smid] + [echoed];
    LookupAppended(members, smid, "time");
    LookupAppended(members, smid, key);
    LookupAppended(members + [smid], echoed, "time");
    LookupAppended(members + [smid], echoed, key);
    LookupOverwritten(more, "time", Number(now), key);
    hide Lookup, Overwrite;
  }

  /** Stamping moves nothing: all members stay in their place, but for the value of one. */
  lemma StampedKeepsOrder(members: seq<Member>, mid: nat, now: nat)
    requires Lookup(members, "time").Some?
    ensures var r := Stamped(members, mid, now);
      |r| == |members| + 2
      && (forall i :: 0 <= i < |members| ==> r[i].key == members[i].key)
      && r[|members|] == Member("smid", Number(mid)) && r[|members| + 1] == Member("echoed", Bool(true))
  {
    var smid, echoed := Member("smid", Number(mid)), Member("echoed", Bool(true));
    LookupAppended(members, smid, "time");
    LookupAppended(members + [smid], echoed, "time");
    OverwriteFront(members, [smid, echoed], "time", Number(now));
    LookupOverwritten(members, "time", Number(now), "time");
    assert members + [smid] + [echoed] == members + [smid, echoed];
    hide Lookup, Overwrite;
  }

  lemma {:induction false} OverwriteFront(a: seq<Member>, b: seq<Member>, key: string, value: Value)
    requires Lookup(a, key).Some?
    ensures Lookup(a + b, key).Some? && Overwrite(a + b, key, value) == Overwrite(a, key, value) + b
    decreases |a|
  {
    assert (a + b)[1..] == a[1..] + b;
    if a[0].key != key {
      OverwriteFront(a[1..], b, key, value);
    }
  }

  /** A message is accepted before stamping exactly when it is accepted after it and its own time was a
      number: stamping mends a time of the wrong type and nothing else. What is read is the same, but
      for the time, which is the server's. */
  lemma StampingKeepsMeaning(apps: Registry, members: seq<Member>, mid: nat, now: nat)
    requires Lookup(members, "time").Some? && IsUint64(Number(now))
    ensures var r, time := Stamped(members, mid, now), Lookup(members, "time").value;
      (Accepts(apps, Object(members)) <==> Accepts(apps, Object(r)) && IsUint64(time))
      && (forall data :: Describes(apps, Object(members), data) ==> Describes(apps, Object(r), data.(time := now)))
      && (forall data :: Describes(apps, Object(r), data) ==>
            data.time == now && (IsUint64(time) ==> Describes(apps, Object(members), data.(time := time.n))))
  {
    StampedLookup(members, mid, now, "app");
    StampedLookup(members, mid, now, "time");
    StampedLookup(members, mid, now, "type");
    StampedLookup(members, mid, now, "ctype");
    hide Stamped, Lookup, Seen, ControlOf;
  }

  /** The payload as it was meant. */
  function Meant(p: Payload): Option<Value> {
    match p
    case Nothing => None
    case Int(n) => Some(Number(n))
    case Text(s) => Some(Str(s))
    case Bytes(bytes) => Some(Array(seq(|bytes|, i requires 0 <= i < |bytes| => Number(bytes[i]))))
    case Tree(v) => Some(v)
    case Texts(ss) => Some(Array(seq(|ss|, i requires 0 <= i < |ss| => Str(ss[i]))))
  }

  predicate WithoutZeros(p: Payload) {
    (p.Text? ==> '\0' !in p.s) && (p.Texts? ==> forall i :: 0 <= i < |p.ss| ==> '\0' !in p.ss[i])
  }

  /** Every payload, numbers, bytes, values, texts and lists of texts, is found in the built message as it
      was meant, and still after stamping, exactly when none of its texts has a zero character. */
  lemma PayloadSurvivesIff(name: CString, mid: nat, now: nat, kind: Kind, p: Payload, mid': nat, now': nat)
    ensures var m := Message(name, mid, now, kind, p);
      && (Lookup(m, "data") == Meant(p) <==> WithoutZeros(p))
      && Lookup(m, "time").Some? && Lookup(Stamped(m, mid', now'), "data") == Lookup(m, "data")
  {
    MessageLookups(name, mid, now, kind, p);
    StampedLookup(Message(name, mid, now, kind, p), mid', now', "data");
    hide Message, Stamped, Lookup, Seen;
    match p {
      case Texts(ss) => TextsSurviveIff(ss);
      case Bytes(bytes) => assert AsNumbers(bytes) == Meant(p).value.items;
      case _ =>
    }
  }

  lemma TextsSurviveIff(ss: seq<string>)
    ensures Some(PayloadValue(Texts(ss))) == Meant(Texts(ss)) <==> WithoutZeros(Texts(ss))
  {
    hide Seen;
    var got, meant := SeenAll(ss), seq(|ss|, i requires 0 <= i < |ss| => Str(ss[i]));
    if WithoutZeros(Texts(ss)) {
      assert got == meant;
    } else {
      var i :| 0 <= i < |ss| && '\0' in ss[i];
      assert got[i] != meant[i];
    }
  }

  /** The members stand in the order in which they are written. */
  lemma MessageOrder(name: CString, mid: nat, now: nat, kind: Kind, p: Payload)
    ensures var m := Message(name, mid, now, kind, p);
      var keys := ["app", "smid", "uid", "time", "type"] + (if kind.Data? then [] else ["ctype"])
        + (if p.Nothing? then [] else ["data"]);
      |m| == |keys| && forall i :: 0 <= i < |m| ==> m[i].key == keys[i]
  {
    hide PayloadValue, ControlName;
  }

  /** The bytes of a payload survive building, stamping and taking out, whatever they are. */
  lemma BytesSurvive(name: CString, mid: nat, now: nat, kind: Kind, bytes: seq<byte>, mid': nat, now': nat)
    ensures var m := Message(name, mid, now, kind, Bytes(bytes));
      Lookup(m, "time").Some?
      && var data := Lookup(Stamped(m, mid', now'), "data");
        data.Some? && data.value.Array? && AllUint(Children(data.value)) && LowBytes(Children(data.value)) == bytes
  {
    MessageLookups(name, mid, now, kind, Bytes(bytes));
    StampedLookup(Message(name, mid, now, kind, Bytes(bytes)), mid', now', "data");
    BytesRoundTrip(bytes);
    hide Message, Stamped, Lookup;
  }

  /** A text survives exactly when it has no zero character in it. */
  lemma TextSurvivesIff(name: CString, mid: nat, now: nat, kind: Kind, s: string)
    ensures Lookup(Message(name, mid, now, kind, Text(s)), "data") == Some(Str(s)) <==> '\0' !in s
  {
    MessageLookups(name, mid, now, kind, Text(s));
    hide Message, Lookup, Seen;
  }

  // ---------- A message from a browser ----------

  datatype Outcome = Stops | IllFormed | NotFound | Handled(app: AppId, ran: Option<AppId>)

  /** `on_message` on a parsed object: stamp it, which is what gets echoed, then parse the stamped
      message and hand it to the app. A message without a time stops the program. An app that was found
      by its name is always found again, so the answer that there is no such app is never given. */
  method Receive(apps: Apps, counters: Counters, doc: Document, now: nat, init: MainData) returns (r: Outcome)
    requires WellKeyed(apps.apps) && IsUint64(Number(now))
    modifies doc, counters`mid
    ensures counters.mid == old(counters.mid) + 1
    ensures r.Stops? <==> Lookup(old(doc.members), "time").None?
    ensures r != NotFound
    ensures !r.Stops? ==> doc.members == Stamped(old(doc.members), old(counters.mid), now)
    ensures !r.Stops? ==> (r.Handled? <==> Accepts(apps.apps, Object(doc.members)))
    ensures r.Handled? ==> r.app in apps.apps && r.ran == (if apps.apps[r.app].handles then Some(r.app) else None)
    ensures r.Handled? ==> apps.apps[r.app].name == ReadHeader(doc.members).value.name
  {
    var stops := doc.AddMid(counters, now);
    if stops {
      return Stops;
    }
    var ok, data := ParserMain(apps, Object(doc.members), init);
    if !ok {
      return IllFormed;
    }
    var known, ran := apps.Exec(data.app);
    if !known {
      return NotFound;
    }
    r := Handled(data.app, ran);
  }
}
