/** The law asked of the JSON codec can be met: an encoding of objects as bytes that reads back. */
module ContentCodec {
  import opened Prelude
  import opened Content

  // ---------- a code in which no word is the start of another ----------

  ghost function Nat(n: nat): (b: Bytes)
    ensures b != []
  {
    if n == 0 then [0] else [1] + Nat(n - 1)
  }

  ghost function Text(s: string): (b: Bytes)
    ensures b != []
  {
    if s == [] then [0] else [1] + (Nat(s[0] as int) + Text(s[1..]))
  }

  ghost function Value(j: Json): Bytes
    decreases j, 1, 0
  {
    match j
    case JNull => Nat(0)
    case JBool(flag) => Nat(if flag then 1 else 2)
    case JNumber(n) => Nat(3) + Nat(n)
    case JOtherNumber(spelling) => Nat(4) + Text(spelling)
    case JString(text) => Nat(5) + Text(text)
    case JArray(items) => Nat(6) + Values(j, items)
    case JObject(fields) => Nat(7) + Fields(j, fields)
  }

  ghost function Values(whole: Json, items: seq<Json>): Bytes
    requires forall i :: 0 <= i < |items| ==> items[i] < whole
    decreases whole, 0, |items|
  {
    if items == [] then [0] else [1] + (Value(items[0]) + Values(whole, items[1..]))
  }

  ghost function SomeKey(fields: map<string, Json>): (k: string)
    requires fields != map[]
    ensures k in fields
  {
    var k :| k in fields; k
  }

  ghost function Fields(whole: Json, fields: map<string, Json>): Bytes
    requires forall k :: k in fields ==> fields[k] < whole
    decreases whole, 0, |fields|
  {
    if fields == map[] then [0]
    else
      var k := SomeKey(fields);
      [1] + (Text(k) + (Value(fields[k]) + Fields(whole, fields - {k})))
  }

  lemma Regroup(a: Bytes, b: Bytes, x: Bytes)
    ensures (([1] + (a + b)) + x)[1..] == a + (b + x)
  {
  }

  lemma RegroupField(a: Bytes, b: Bytes, c: Bytes, x: Bytes)
    ensures (([1] + (a + (b + c))) + x)[1..] == a + (b + (c + x))
  {
    Regroup(a, b + c, x);
    assert (b + c) + x == b + (c + x);
  }

  lemma {:induction false} NatReads(m: nat, n: nat, x: Bytes, y: Bytes)
    requires Nat(m) + x == Nat(n) + y
    ensures m == n && x == y
  {
    assert (Nat(m) + x)[0] == Nat(m)[0] && (Nat(n) + y)[0] == Nat(n)[0];
    assert x == (Nat(m) + x)[|Nat(m)|..] && y == (Nat(n) + y)[|Nat(n)|..];
    if m > 0 && n > 0 {
      assert Nat(m - 1) + x == (Nat(m) + x)[1..];
      assert Nat(n - 1) + y == (Nat(n) + y)[1..];
      NatReads(m - 1, n - 1, x, y);
    }
  }

  lemma {:induction false} TextReads(s: string, t: string, x: Bytes, y: Bytes)
    requires Text(s) + x == Text(t) + y
    ensures s == t && x == y
  {
    assert (Text(s) + x)[0] == Text(s)[0] && (Text(t) + y)[0] == Text(t)[0];
    if s == [] || t == [] {
      assert x == (Text(s) + x)[1..] && y == (Text(t) + y)[1..];
    } else {
      Regroup(Nat(s[0] as int), Text(s[1..]), x);
      Regroup(Nat(t[0] as int), Text(t[1..]), y);
      NatReads(s[0] as int, t[0] as int, Text(s[1..]) + x, Text(t[1..]) + y);
      TextReads(s[1..], t[1..], x, y);
    }
  }

  function Tag(j: Json): nat {
    match j
    case JNull => 0
    case JBool(flag) => if flag then 1 else 2
    case JNumber(_) => 3
    case JOtherNumber(_) => 4
    case JString(_) => 5
    case JArray(_) => 6
    case JObject(_) => 7
  }

  ghost function Rest(j: Json): Bytes {
    match j
    case JNull => []
    case JBool(_) => []
    case JNumber(n) => Nat(n)
    case JOtherNumber(spelling) => Text(spelling)
    case JString(text) => Text(text)
    case JArray(items) => Values(j, items)
    case JObject(fields) => Fields(j, fields)
  }

  lemma ValueSplits(j: Json, x: Bytes)
    ensures Value(j) + x == Nat(Tag(j)) + (Rest(j) + x)
  {
    assert Value(j) == Nat(Tag(j)) + Rest(j);
  }

  lemma {:induction false} ValueReads(i: Json, j: Json, x: Bytes, y: Bytes)
    requires Value(i) + x == Value(j) + y
    ensures i == j && x == y
    decreases i, 1, 0
  {
    ValueSplits(i, x);
    ValueSplits(j, y);
    NatReads(Tag(i), Tag(j), Rest(i) + x, Rest(j) + y);
    match i
    case JNull => assert Rest(i) + x == x && Rest(j) + y == y;
    case JBool(_) => assert Rest(i) + x == x && Rest(j) + y == y;
    case JNumber(n) => NatReads(n, j.n, x, y);
    case JOtherNumber(spelling) => TextReads(spelling, j.spelling, x, y);
    case JString(text) => TextReads(text, j.text, x, y);
    case JArray(items) => ValuesRead(i, items, j, j.items, x, y);
    case JObject(fields) => FieldsRead(i, fields, j, j.fields, x, y);
  }

  lemma {:induction false} ValuesRead(i: Json, a: seq<Json>, j: Json, b: seq<Json>, x: Bytes, y: Bytes)
    requires (forall k :: 0 <= k < |a| ==> a[k] < i) && (forall k :: 0 <= k < |b| ==> b[k] < j)
    requires Values(i, a) + x == Values(j, b) + y
    ensures a == b && x == y
    decreases i, 0, |a|
  {
    assert (Values(i, a) + x)[0] == Values(i, a)[0] && (Values(j, b) + y)[0] == Values(j, b)[0];
    if a == [] || b == [] {
      assert x == (Values(i, a) + x)[1..] && y == (Values(j, b) + y)[1..];
    } else {
      Regroup(Value(a[0]), Values(i, a[1..]), x);
      Regroup(Value(b[0]), Values(j, b[1..]), y);
      ValueReads(a[0], b[0], Values(i, a[1..]) + x, Values(j, b[1..]) + y);
      ValuesRead(i, a[1..], j, b[1..], x, y);
    }
  }

  lemma Restored(a: map<string, Json>, k: string)
    requires k in a
    ensures a == (a - {k})[k := a[k]]
  {
  }

  lemma {:induction false} FieldsRead(i: Json, a: map<string, Json>, j: Json, b: map<string, Json>, x: Bytes, y: Bytes)
    requires (forall k :: k in a ==> a[k] < i) && (forall k :: k in b ==> b[k] < j)
    requires Fields(i, a) + x == Fields(j, b) + y
    ensures a == b && x == y
    decreases i, 0, |a|
  {
    assert (Fields(i, a) + x)[0] == Fields(i, a)[0] && (Fields(j, b) + y)[0] == Fields(j, b)[0];
    if a == map[] || b == map[] {
      assert x == (Fields(i, a) + x)[1..] && y == (Fields(j, b) + y)[1..];
    } else {
      var k, m := SomeKey(a), SomeKey(b);
      RegroupField(Text(k), Value(a[k]), Fields(i, a - {k}), x);
      RegroupField(Text(m), Value(b[m]), Fields(j, b - {m}), y);
      TextReads(k, m, Value(a[k]) + (Fields(i, a - {k}) + x), Value(b[m]) + (Fields(j, b - {m}) + y));
      ValueReads(a[k], b[m], Fields(i, a - {k}) + x, Fields(j, b - {m}) + y);
      FieldsRead(i, a - {k}, j, b - {m}, x, y);
      Restored(a, k);
      Restored(b, m);
    }
  }

  // ---------- the codec ----------

  ghost function Write(o: map<string, Json>): Bytes {
    Value(JObject(o))
  }

  ghost function Read(b: Bytes): (r: Option<map<string, Json>>) {
    if exists o :: Write(o) == b then
      var o :| Write(o) == b;
      Some(o)
    else None
  }

  lemma ReadsBack(o: map<string, Json>)
    ensures Read(Write(o)) == Some(o)
  {
    var p := Read(Write(o)).value;
    ValueReads(JObject(o), JObject(p), [], []);
  }

  /** A lawful codec exists, so what is proved of lawful codecs is not about nothing. */
  lemma LawfulExists() returns (codec: Codec)
    ensures Lawful(codec)
  {
    codec := Codec(o => Write(o), b => Read(b), b => None, s => None, s => None, 0, 1);
    forall o ensures codec.readObject(codec.write(o)) == Some(o) {
      ReadsBack(o);
    }
  }
}
