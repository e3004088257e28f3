/**
 JSON values as the library keeps them: an object is an ordered list of members, looking a key up finds
 the first one, and adding a member only ever appends.
 */
module Json {
  import opened Basics

  /** `Number` is an integer, `Real` any other number. */
  datatype Value =
    | Null
    | Bool(b: bool)
    | Number(n: int)
    | Real(r: real)
    | Str(s: string)
    | Array(items: seq<Value>)
    | Object(members: seq<Member>)

  datatype Member = Member(key: string, value: Value)

  predicate IsUint(v: Value) {
    v.Number? && 0 <= v.n < 0x1_0000_0000
  }

  predicate IsUint64(v: Value) {
    v.Number? && 0 <= v.n < 0x1_0000_0000_0000_0000
  }

  /** The value of the first member with this key. */
  function Lookup(members: seq<Member>, key: string): Option<Value> {
    if members == [] then None
    else if members[0].key == key then Some(members[0].value)
    else Lookup(members[1..], key)
  }

  /** `doc[key] = value` on a key that is there: the first such member is overwritten. */
  function Overwrite(members: seq<Member>, key: string, value: Value): seq<Member>
    requires Lookup(members, key).Some?
  {
    if members[0].key == key then [Member(key, value)] + members[1..]
    else [members[0]] + Overwrite(members[1..], key, value)
  }

  lemma LookupCons(m: Member, rest: seq<Member>)
    ensures forall key :: Lookup([m] + rest, key) == if m.key == key then Some(m.value) else Lookup(rest, key)
  {
    assert ([m] + rest)[1..] == rest;
  }

  /** An appended member is found only when there was none with its key. */
  lemma {:induction false} LookupAppended(members: seq<Member>, m: Member, key: string)
    ensures Lookup(members + [m], key) ==
      if Lookup(members, key).Some? then Lookup(members, key)
      else if m.key == key then Some(m.value)
      else None
    decreases |members|
  {
    if members == [] {
      assert (members + [m])[1..] == [];
    } else {
      assert (members + [m])[1..] == members[1..] + [m];
      LookupAppended(members[1..], m, key);
    }
  }

  /** Overwriting is seen through its key and no other, and moves nothing. */
  lemma {:induction false} LookupOverwritten(members: seq<Member>, key: string, value: Value, k: string)
    requires Lookup(members, key).Some?
    ensures var r := Overwrite(members, key, value);
      Lookup(r, k) == (if k == key then Some(value) else Lookup(members, k))
      && |r| == |members| && (forall i :: 0 <= i < |r| ==> r[i].key == members[i].key)
    decreases |members|
  {
    var r := Overwrite(members, key, value);
    if members[0].key == key {
      assert r[1..] == members[1..];
    } else {
      LookupOverwritten(members[1..], key, value, k);
      assert r[1..] == Overwrite(members[1..], key, value);
    }
  }

  // ---------- Strings that end at a zero character ----------

  type CString = s: string | '\0' !in s

  /** What a comparison through `GetString()` or `c_str()` sees of a string. */
  function Seen(s: string): (r: CString)
    ensures r <= s && ('\0' in s <==> r != s)
  {
    if s == "" || s[0] == '\0' then "" else
      var r := Seen(s[1..]);
      assert s == [s[0]] + s[1..];
      [s[0]] + r
  }

  // ---------- Arrays of bytes ----------

  function AsNumbers(bytes: seq<byte>): (r: seq<Value>)
    ensures |r| == |bytes|
  {
    seq(|bytes|, i requires 0 <= i < |bytes| => Number(bytes[i]))
  }

  /** The values of an array or of an object, in order. */
  function Children(v: Value): seq<Value> {
    match v
    case Array(items) => items
    case Object(members) => seq(|members|, i requires 0 <= i < |members| => members[i].value)
    case _ => []
  }

  predicate AllUint(values: seq<Value>) {
    forall i :: 0 <= i < |values| ==> IsUint(values[i])
  }

  /** The conversion to one byte keeps the low eight bits. */
  function LowBytes(values: seq<Value>): (r: seq<byte>)
    requires AllUint(values)
    ensures |r| == |values|
  {
    seq(|values|, i requires 0 <= i < |values| => values[i].n % 256)
  }

  /** `make_data_array`. */
  method MakeDataArray(bytes: seq<byte>) returns (r: Value)
    ensures r == Array(AsNumbers(bytes))
  {
    var items: seq<Value> := [];
    for i := 0 to |bytes|
      invariant items == AsNumbers(bytes[..i])
    {
      items := items + [Number(bytes[i])];
    }
    assert bytes[..|bytes|] == bytes;
    r := Array(items);
  }

  /** `json_2_byte_array` appends to the bytes already there. `GetUint` may only be asked of unsigned
      numbers. */
  method ToByteArray(v: Value, data: seq<byte>) returns (ok: bool, r: seq<byte>)
    requires AllUint(Children(v))
    ensures ok == (v.Array? || v.Object?)
    ensures r == data + LowBytes(Children(v))
  {
    r := data;
    if v.Array? {
      for i := 0 to |v.items|
        invariant r == data + LowBytes(v.items[..i])
      {
        r := r + [v.items[i].n % 256];
      }
      assert v.items[..|v.items|] == v.items;
      return true, r;
    }
    if v.Object? {
      ghost var values := Children(v);
      for i := 0 to |v.members|
        invariant r == data + LowBytes(values[..i])
      {
        assert values[i] == v.members[i].value;
        r := r + [v.members[i].value.n % 256];
      }
      assert values[..|values|] == values;
      return true, r;
    }
    return false, r;
  }

  /** Reading back the array that was made of some bytes. */
  lemma BytesRoundTrip(bytes: seq<byte>)
    ensures var v := Array(AsNumbers(bytes)); AllUint(Children(v)) && LowBytes(Children(v)) == bytes
  {
    var v := Array(AsNumbers(bytes));
    assert LowBytes(Children(v)) == bytes;
  }

  /** What is kept of each number is its remainder by 256. */
  lemma LowBytesAreRemainders(values: seq<Value>, i: nat)
    requires AllUint(values) && i < |values|
    ensures exists high: nat :: values[i].n == 256 * high + LowBytes(values)[i]
  {
    assert values[i].n == 256 * (values[i].n / 256) + values[i].n % 256;
  }

  /** An array is made of bytes by `make_data_array` exactly when none of its numbers loses bits. */
  lemma LowBytesLoseNothingIff(values: seq<Value>)
    requires AllUint(values)
    ensures AsNumbers(LowBytes(values)) == values <==> forall i :: 0 <= i < |values| ==> values[i].n < 256
  {
    var back := AsNumbers(LowBytes(values));
    if forall i :: 0 <= i < |values| ==> values[i].n < 256 {
      assert back == values;
    } else {
      var i :| 0 <= i < |values| && values[i].n >= 256;
      assert back[i] != values[i];
    }
  }
}
