/**
 The canonical JSON printer behind the payload fingerprints. Numbers are
 integers, as in every payload it prints.
 */
module CanonicalJson {
  import opened ArtifactPolicy
  import opened Utf16
  import opened TextOrder

  datatype Json =
    | Null
    | Bool(b: bool)
    | Num(n: int)
    | Str(s: Text)
    | Arr(items: seq<Json>)
    | Obj(fields: seq<Field>)

  datatype Field = Field(key: Text, value: Json)

  const QUOTE: Unit := 0x22
  const COMMA: Unit := 0x2C
  const MINUS: Unit := 0x2D
  const OPEN_ARRAY: Unit := 0x5B
  const CLOSE_ARRAY: Unit := 0x5D
  const OPEN_OBJECT: Unit := 0x7B
  const CLOSE_OBJECT: Unit := 0x7D

  // ---- Strings (RFC 8259 section 7, with lone surrogates escaped) ----

  function Hex(d: nat): Unit
    requires d < 16
  {
    if d < 10 then 0x30 + d else 0x57 + d
  }

  /** The two-unit escapes. */
  function ShortEscape(u: Unit): Unit {
    if u == QUOTE || u == BACKSLASH then u
    else if u == 8 then 0x62
    else if u == 9 then 0x74
    else if u == 10 then 0x6E
    else if u == 12 then 0x66
    else if u == 13 then 0x72
    else 0
  }

  function Escape(u: Unit): Text {
    if ShortEscape(u) != 0 then [BACKSLASH, ShortEscape(u)]
    else [BACKSLASH, 0x75, Hex(u / 16 / 16 / 16), Hex(u / 16 / 16 % 16), Hex(u / 16 % 16), Hex(u % 16)]
  }

  predicate MustEscape(u: Unit) { u < 0x20 || u == QUOTE || u == BACKSLASH }

  predicate Paired(s: Text) { |s| > 1 && High(s[0]) && Low(s[1]) }

  /** How many units the printer consumes at once: a surrogate pair or one. */
  function Step(s: Text): nat
    requires s != []
  {
    if Paired(s) then 2 else 1
  }

  function Chunk(s: Text): Text
    requires s != []
  {
    if Paired(s) then s[..2]
    else if MustEscape(s[0]) || High(s[0]) || Low(s[0]) then Escape(s[0])
    else [s[0]]
  }

  function Body(s: Text): Text {
    if s == [] then [] else Chunk(s) + Body(s[Step(s)..])
  }

  function Quoted(s: Text): Text { [QUOTE] + Body(s) + [QUOTE] }

  // ---- Numbers (section 6) ----

  function Digits(n: nat): (t: Text)
    ensures t != [] && forall u :: u in t ==> 0x30 <= u <= 0x39
  {
    if n < 10 then [0x30 + n] else Digits(n / 10) + [0x30 + n % 10]
  }

  function Number(n: int): Text { if n < 0 then [MINUS] + Digits(-n) else Digits(n) }

  // ---- Values ----

  function JoinComma(texts: seq<Text>): Text {
    if texts == [] then []
    else if |texts| == 1 then texts[0]
    else texts[0] + [COMMA] + JoinComma(texts[1..])
  }

  datatype Printed = Printed(key: Text, text: Text)

  function PrintedKey(p: Printed): Text { p.key }

  function FieldTexts(fields: seq<Printed>): (r: seq<Text>)
    ensures |r| == |fields|
  {
    if fields == [] then [] else [Quoted(fields[0].key) + [COLON] + fields[0].text] + FieldTexts(fields[1..])
  }

  /** The printer: object keys in sorted order, arrays in their own. */
  function Print(v: Json): Text {
    match v
    case Null => Ascii("null")
    case Bool(b) => Ascii(if b then "true" else "false")
    case Num(n) => Number(n)
    case Str(s) => Quoted(s)
    case Arr(items) => [OPEN_ARRAY] + JoinComma(PrintAll(items)) + [CLOSE_ARRAY]
    case Obj(fields) => [OPEN_OBJECT] + JoinComma(FieldTexts(SortBy(PrintFields(fields), PrintedKey))) + [CLOSE_OBJECT]
  }

  function PrintAll(items: seq<Json>): seq<Text>
    decreases items
  {
    if items == [] then [] else [Print(items[0])] + PrintAll(items[1..])
  }

  function PrintFields(fields: seq<Field>): seq<Printed>
    decreases fields
  {
    if fields == [] then [] else [Printed(fields[0].key, Print(fields[0].value))] + PrintFields(fields[1..])
  }

  // ---- The value up to key order ----

  function KeyOf(f: Field): Text { f.key }

  /** The same value with the keys of every object in sorted order. */
  function Canon(v: Json): Json {
    match v
    case Arr(items) => Arr(CanonAll(items))
    case Obj(fields) => Obj(SortBy(CanonFields(fields), KeyOf))
    case _ => v
  }

  function CanonAll(items: seq<Json>): (r: seq<Json>)
    ensures |r| == |items| && forall i :: 0 <= i < |r| ==> r[i] == Canon(items[i])
    decreases items
  {
    if items == [] then [] else [Canon(items[0])] + CanonAll(items[1..])
  }

  function CanonFields(fields: seq<Field>): (r: seq<Field>)
    ensures |r| == |fields| && forall i :: 0 <= i < |r| ==> r[i] == Field(fields[i].key, Canon(fields[i].value))
    decreases fields
  {
    if fields == [] then [] else [Field(fields[0].key, Canon(fields[0].value))] + CanonFields(fields[1..])
  }

  predicate HasKey(fields: seq<Field>, key: Text) { exists i :: 0 <= i < |fields| && fields[i].key == key }

  ghost predicate SameKeys(a: seq<Field>, b: seq<Field>) { forall key :: HasKey(a, key) <==> HasKey(b, key) }

  /** Equality that ignores the order of object keys: the same leaves, the same arrays,
      and in objects the same keys with the same values. */
  ghost predicate SameValue(a: Json, b: Json)
    decreases a
  {
    match a
    case Arr(items) => b.Arr? && |b.items| == |items| && forall i :: 0 <= i < |items| ==>
      SameValue(items[i], b.items[i])
    case Obj(fields) =>
      && b.Obj? && SameKeys(fields, b.fields)
      && (forall i, j :: 0 <= i < |fields| && 0 <= j < |b.fields| && fields[i].key == b.fields[j].key ==>
            SameValue(fields[i].value, b.fields[j].value))
    case _ => a == b
  }

  /** No object names a key twice. */
  ghost predicate WellKeyed(v: Json)
    decreases v
  {
    match v
    case Arr(items) => forall i :: 0 <= i < |items| ==> WellKeyed(items[i])
    case Obj(fields) => DistinctKeys(fields, KeyOf) && forall i :: 0 <= i < |fields| ==> WellKeyed(fields[i].value)
    case _ => true
  }

  /** Sorting all keys decides that equality. */
  lemma {:induction false} CanonDecides(a: Json, b: Json)
    requires WellKeyed(a) && WellKeyed(b)
    ensures Canon(a) == Canon(b) <==> SameValue(a, b)
    decreases a
  {
    if a.Arr? && b.Arr? && |a.items| == |b.items| {
      forall i | 0 <= i < |a.items|
        ensures Canon(a.items[i]) == Canon(b.items[i]) <==> SameValue(a.items[i], b.items[i]) {
        CanonDecides(a.items[i], b.items[i]);
      }
      assert CanonAll(a.items) == CanonAll(b.items) <==>
             forall i :: 0 <= i < |a.items| ==> CanonAll(a.items)[i] == CanonAll(b.items)[i];
    } else if a.Obj? && b.Obj? {
      var x, y := CanonFields(a.fields), CanonFields(b.fields);
      forall i, j | 0 <= i < |a.fields| && 0 <= j < |b.fields|
        ensures Canon(a.fields[i].value) == Canon(b.fields[j].value) <==>
          SameValue(a.fields[i].value, b.fields[j].value)
      {
        CanonDecides(a.fields[i].value, b.fields[j].value);
      }
      ElementsMatch(a.fields, b.fields, x, y);
      SortedAlike(x, y);
    }
  }

  lemma SortedAlike(x: seq<Field>, y: seq<Field>)
    requires DistinctKeys(x, KeyOf) && DistinctKeys(y, KeyOf)
    ensures SortBy(x, KeyOf) == SortBy(y, KeyOf) <==> SameElements(x, y)
  {
    hide DistinctKeys, SortBy;
    if SameElements(x, y) { SortForgetsOrder(x, y, KeyOf); }
    if SortBy(x, KeyOf) == SortBy(y, KeyOf) {
      forall f ensures f in x <==> f in y {
        assert f in x <==> f in SortBy(x, KeyOf);
        assert f in y <==> f in SortBy(y, KeyOf);
      }
    }
  }

  /** Fields with distinct keys are the same as a set exactly when they have the same
      keys, with equal values. */
  lemma ElementsMatch(a: seq<Field>, b: seq<Field>, x: seq<Field>, y: seq<Field>)
    requires DistinctKeys(a, KeyOf) && DistinctKeys(b, KeyOf)
    requires |x| == |a| && forall i :: 0 <= i < |a| ==> x[i].key == a[i].key
    requires |y| == |b| && forall j :: 0 <= j < |b| ==> y[j].key == b[j].key
    ensures DistinctKeys(x, KeyOf) && DistinctKeys(y, KeyOf)
    ensures SameElements(x, y) <==>
      SameKeys(a, b) && forall i, j :: 0 <= i < |a| && 0 <= j < |b| && a[i].key == b[j].key ==> x[i].value == y[j].value
  {
    assert forall i :: 0 <= i < |a| ==> KeyOf(x[i]) == KeyOf(a[i]);
    assert forall j :: 0 <= j < |b| ==> KeyOf(y[j]) == KeyOf(b[j]);
    if SameElements(x, y) {
      SameElementsSameKeys(a, b, x, y);
      forall i, j | 0 <= i < |a| && 0 <= j < |b| && a[i].key == b[j].key ensures x[i].value == y[j].value {
        assert x[i] in y;
        var k :| 0 <= k < |y| && y[k] == x[i];
        assert KeyOf(b[k]) == KeyOf(b[j]);
      }
    }
    if SameKeys(a, b) && forall i, j :: 0 <= i < |a| && 0 <= j < |b| && a[i].key == b[j].key ==>
      x[i].value == y[j].value {
      forall f ensures f in x <==> f in y {
        if f in x {
          var i :| 0 <= i < |x| && x[i] == f;
          assert HasKey(a, a[i].key);
          var j :| 0 <= j < |b| && b[j].key == a[i].key;
          assert y[j] == f;
        }
        if f in y {
          var j :| 0 <= j < |y| && y[j] == f;
          assert HasKey(b, b[j].key);
          var i :| 0 <= i < |a| && a[i].key == b[j].key;
          assert x[i] == f;
        }
      }
    }
  }

  lemma SameElementsSameKeys(a: seq<Field>, b: seq<Field>, x: seq<Field>, y: seq<Field>)
    requires |x| == |a| && forall i :: 0 <= i < |a| ==> x[i].key == a[i].key
    requires |y| == |b| && forall j :: 0 <= j < |b| ==> y[j].key == b[j].key
    requires SameElements(x, y)
    ensures SameKeys(a, b)
  {
    forall key ensures HasKey(a, key) <==> HasKey(b, key) {
      if HasKey(a, key) {
        var i :| 0 <= i < |a| && a[i].key == key;
        assert x[i] in y;
        var j :| 0 <= j < |y| && y[j] == x[i];
        assert b[j].key == key;
      }
      if HasKey(b, key) {
        var j :| 0 <= j < |b| && b[j].key == key;
        assert y[j] in x;
        var i :| 0 <= i < |x| && x[i] == y[j];
        assert a[i].key == key;
      }
    }
  }

  // ---- Printing in the order given ----

  function Write(v: Json): Text {
    match v
    case Null => Ascii("null")
    case Bool(b) => Ascii(if b then "true" else "false")
    case Num(n) => Number(n)
    case Str(s) => Quoted(s)
    case Arr(items) => [OPEN_ARRAY] + WriteItems(items) + [CLOSE_ARRAY]
    case Obj(fields) => [OPEN_OBJECT] + WriteFields(fields) + [CLOSE_OBJECT]
  }

  function WriteItems(items: seq<Json>): Text
    decreases items
  {
    if items == [] then []
    else if |items| == 1 then Write(items[0])
    else Write(items[0]) + [COMMA] + WriteItems(items[1..])
  }

  function WriteField(f: Field): Text { Quoted(f.key) + [COLON] + Write(f.value) }

  function WriteFields(fields: seq<Field>): Text
    decreases fields
  {
    if fields == [] then []
    else if |fields| == 1 then WriteField(fields[0])
    else WriteField(fields[0]) + [COMMA] + WriteFields(fields[1..])
  }

  function Written(f: Field): Printed { Printed(f.key, Write(f.value)) }

  function WrittenAll(fields: seq<Field>): (r: seq<Printed>)
    ensures |r| == |fields| && forall i :: 0 <= i < |r| ==> r[i] == Written(fields[i])
  {
    seq(|fields|, i requires 0 <= i < |fields| => Written(fields[i]))
  }

  lemma {:induction false} InsertWritten(f: Field, fields: seq<Field>)
    ensures Insert(Written(f), WrittenAll(fields), PrintedKey) == WrittenAll(Insert(f, fields, KeyOf))
  {
    if fields != [] {
      assert WrittenAll(fields)[1..] == WrittenAll(fields[1..]);
      if Less(fields[0].key, f.key) { InsertWritten(f, fields[1..]); }
    }
  }

  lemma {:induction false} SortWritten(fields: seq<Field>)
    ensures SortBy(WrittenAll(fields), PrintedKey) == WrittenAll(SortBy(fields, KeyOf))
  {
    if fields != [] {
      assert WrittenAll(fields)[1..] == WrittenAll(fields[1..]);
      SortWritten(fields[1..]);
      InsertWritten(fields[0], SortBy(fields[1..], KeyOf));
    }
  }

  lemma {:induction false} JoinWritten(fields: seq<Field>)
    ensures JoinComma(FieldTexts(WrittenAll(fields))) == WriteFields(fields)
  {
    if fields != [] {
      assert WrittenAll(fields)[1..] == WrittenAll(fields[1..]);
      JoinWritten(fields[1..]);
      assert FieldTexts(WrittenAll(fields))[1..] == FieldTexts(WrittenAll(fields[1..]));
    }
  }

  /** Printing is writing the value with its keys sorted. */
  lemma {:induction false} PrintWritesCanon(v: Json)
    ensures Print(v) == Write(Canon(v))
  {
    match v
    case Arr(items) => PrintAllWrites(items);
    case Obj(fields) =>
      PrintFieldsWrite(fields);
      SortWritten(CanonFields(fields));
      JoinWritten(SortBy(CanonFields(fields), KeyOf));
    case _ =>
  }

  lemma {:induction false} PrintAllWrites(items: seq<Json>)
    ensures JoinComma(PrintAll(items)) == WriteItems(CanonAll(items))
    decreases items
  {
    if items != [] {
      PrintWritesCanon(items[0]);
      PrintAllWrites(items[1..]);
      assert PrintAll(items)[1..] == PrintAll(items[1..]);
      assert CanonAll(items)[1..] == CanonAll(items[1..]);
      assert |PrintAll(items[1..])| == 0 <==> |items| == 1;
    }
  }

  lemma {:induction false} PrintFieldsWrite(fields: seq<Field>)
    ensures PrintFields(fields) == WrittenAll(CanonFields(fields))
    decreases fields
  {
    if fields != [] {
      PrintWritesCanon(fields[0].value);
      PrintFieldsWrite(fields[1..]);
      assert WrittenAll(CanonFields(fields))
        == [Written(CanonFields(fields)[0])] + WrittenAll(CanonFields(fields[1..]));
    }
  }

  // ---- Reading back ----

  /** What may follow a value: nothing, a comma or a closing bracket. */
  predicate Ends(r: Text) { r == [] || r[0] == COMMA || r[0] == CLOSE_ARRAY || r[0] == CLOSE_OBJECT }

  predicate DigitUnit(u: Unit) { 0x30 <= u <= 0x39 }

  lemma Cut(x: Text, y: Text, r: Text, q: Text)
    requires x + r == y + q && |x| == |y|
    ensures x == y && r == q
  {
    assert x == (x + r)[..|x|] && y == (y + q)[..|y|];
    assert r == (x + r)[|x|..] && q == (y + q)[|y|..];
  }

  lemma Assoc(x: Text, y: Text, z: Text)
    ensures x + y + z == x + (y + z)
  {
  }

  predicate AllDigits(t: Text) { forall i :: 0 <= i < |t| ==> DigitUnit(t[i]) }

  lemma NotLonger(a: Text, b: Text, r: Text, q: Text)
    requires a + r == b + q && AllDigits(b) && (r == [] || !DigitUnit(r[0]))
    ensures |b| <= |a|
  {
    assert forall i :: 0 <= i < |b| ==> (b + q)[i] == b[i];
    assert forall i :: 0 <= i < |r| ==> (a + r)[|a| + i] == r[i];
    assert |a| + |r| == |a + r| == |b| + |q|;
  }

  lemma {:induction false} DigitsAreDigits(n: nat)
    ensures AllDigits(Digits(n)) && Digits(n) != []
  {
    if n >= 10 { DigitsAreDigits(n / 10); }
  }

  lemma {:induction false} DigitsInjective(m: nat, n: nat)
    requires Digits(m) == Digits(n)
    ensures m == n
  {
    if m >= 10 && n >= 10 {
      Cut(Digits(m / 10), Digits(n / 10), [0x30 + m % 10], [0x30 + n % 10]);
      DigitsInjective(m / 10, n / 10);
    }
  }

  lemma DigitsPrefix(m: nat, n: nat, r: Text, q: Text)
    requires Digits(m) + r == Digits(n) + q && Ends(r) && Ends(q)
    ensures m == n && r == q
  {
    DigitsAreDigits(m);
    DigitsAreDigits(n);
    NotLonger(Digits(m), Digits(n), r, q);
    NotLonger(Digits(n), Digits(m), q, r);
    Cut(Digits(m), Digits(n), r, q);
    DigitsInjective(m, n);
  }

  lemma NumberPrefix(m: int, n: int, r: Text, q: Text)
    requires Number(m) + r == Number(n) + q && Ends(r) && Ends(q)
    ensures m == n && r == q
  {
    var a: nat, b: nat := if m < 0 then -m else m, if n < 0 then -n else n;
    DigitsAreDigits(a);
    DigitsAreDigits(b);
    hide Digits;
    assert (Number(m) + r)[0] == Number(m)[0] && (Number(n) + q)[0] == Number(n)[0];
    assert (m < 0) == (n < 0);
    if m < 0 {
      Assoc([MINUS], Digits(a), r);
      Assoc([MINUS], Digits(b), q);
      Cut([MINUS], [MINUS], Digits(a) + r, Digits(b) + q);
    }
    DigitsPrefix(a, b, r, q);
  }

  lemma EscapePrefix(u: Unit, w: Unit, r: Text, q: Text)
    requires Escape(u) + r == Escape(w) + q
    ensures u == w && r == q
  {
    var x := Escape(u) + r;
    assert x[1] == Escape(u)[1] && x[1] == Escape(w)[1];
    Cut(Escape(u), Escape(w), r, q);
    if ShortEscape(u) == 0 {
      assert Escape(u)[2] == Escape(w)[2] && Escape(u)[3] == Escape(w)[3];
      assert Escape(u)[4] == Escape(w)[4] && Escape(u)[5] == Escape(w)[5];
      FourDigits(u);
      FourDigits(w);
    }
  }

  lemma FourDigits(u: Unit)
    ensures u == ((u / 16 / 16 / 16 * 16 + u / 16 / 16 % 16) * 16 + u / 16 % 16) * 16 + u % 16
  {
  }

  lemma ChunkPrefix(s: Text, t: Text, r: Text, q: Text)
    requires s != [] && t != [] && Chunk(s) + r == Chunk(t) + q
    ensures Step(s) == Step(t) && s[..Step(s)] == t[..Step(t)] && r == q
  {
    var x := Chunk(s) + r;
    assert x[0] == Chunk(s)[0] == Chunk(t)[0];
    if Paired(s) {
      assert x[1] == Chunk(s)[1] == s[1];
      assert Paired(t);
      Cut(Chunk(s), Chunk(t), r, q);
    } else if Chunk(s) == Escape(s[0]) {
      assert !Paired(t) && Chunk(t) == Escape(t[0]);
      EscapePrefix(s[0], t[0], r, q);
    } else {
      assert !Paired(t) && Chunk(t) == [t[0]];
      Cut(Chunk(s), Chunk(t), r, q);
    }
  }

  lemma BodyFirst(s: Text, r: Text)
    requires r != [] && r[0] == QUOTE
    ensures (Body(s) + r)[0] == QUOTE <==> s == []
  {
    if s != [] { assert (Body(s) + r)[0] == Chunk(s)[0]; }
  }

  /** Two strings whose bodies agree up to a closing quote are equal. */
  lemma {:induction false} BodyPrefix(s: Text, t: Text, r: Text, q: Text)
    requires Body(s) + r == Body(t) + q && r != [] && q != [] && r[0] == QUOTE && q[0] == QUOTE
    ensures s == t && r == q
    decreases |s|
  {
    BodyFirst(s, r);
    BodyFirst(t, q);
    if s == [] {
      assert Body(s) + r == r && Body(t) + q == q;
    } else {
      var a, b := s[Step(s)..], t[Step(t)..];
      Assoc(Chunk(s), Body(a), r);
      Assoc(Chunk(t), Body(b), q);
      hide Chunk;
      ChunkPrefix(s, t, Body(a) + r, Body(b) + q);
      BodyPrefix(a, b, r, q);
      assert s == s[..Step(s)] + a && t == t[..Step(t)] + b;
    }
  }

  lemma QuotedPrefix(s: Text, t: Text, r: Text, q: Text)
    requires Quoted(s) + r == Quoted(t) + q
    ensures s == t && r == q
  {
    hide Body;
    assert Quoted(s) + r == [QUOTE] + (Body(s) + ([QUOTE] + r)) && Quoted(t) + q == [QUOTE] + (Body(t) + ([QUOTE] + q));
    Cut([QUOTE], [QUOTE], Body(s) + ([QUOTE] + r), Body(t) + ([QUOTE] + q));
    BodyPrefix(s, t, [QUOTE] + r, [QUOTE] + q);
    Cut([QUOTE], [QUOTE], r, q);
  }

  /** The first unit of a value tells its kind. */
  function Kind(v: Json): nat {
    match v
    case Null => 0
    case Bool(b) => if b then 1 else 2
    case Num(_) => 3
    case Str(_) => 4
    case Arr(_) => 5
    case Obj(_) => 6
  }

  function KindOf(u: Unit): nat {
    if u == 0x6E then 0 else if u == 0x74 then 1 else if u == 0x66 then 2
    else if u == MINUS || DigitUnit(u) then 3 else if u == QUOTE then 4
    else if u == OPEN_ARRAY then 5 else if u == OPEN_OBJECT then 6 else 7
  }

  lemma FirstUnit(v: Json, r: Text)
    ensures Write(v) != [] && KindOf((Write(v) + r)[0]) == Kind(v)
  {
    if v.Num? { DigitsAreDigits(if v.n < 0 then -v.n else v.n); }
    assert (Write(v) + r)[0] == Write(v)[0];
  }

  lemma {:induction false} WritePrefix(a: Json, b: Json, r: Text, q: Text)
    requires Write(a) + r == Write(b) + q && Ends(r) && Ends(q)
    ensures a == b && r == q
    decreases a
  {
    FirstUnit(a, r);
    FirstUnit(b, q);
    match a
    case Num(n) => NumberPrefix(n, b.n, r, q);
    case Str(s) => QuotedPrefix(s, b.s, r, q);
    case Arr(items) =>
      Bracketed(OPEN_ARRAY, CLOSE_ARRAY, WriteItems(items), WriteItems(b.items), r, q);
      ItemsPrefix(items, b.items, [CLOSE_ARRAY] + r, [CLOSE_ARRAY] + q);
      Cut([CLOSE_ARRAY], [CLOSE_ARRAY], r, q);
    case Obj(fields) =>
      Bracketed(OPEN_OBJECT, CLOSE_OBJECT, WriteFields(fields), WriteFields(b.fields), r, q);
      FieldsPrefix(fields, b.fields, [CLOSE_OBJECT] + r, [CLOSE_OBJECT] + q);
      Cut([CLOSE_OBJECT], [CLOSE_OBJECT], r, q);
    case _ => Cut(Write(a), Write(b), r, q);
  }

  lemma Bracketed(open: Unit, close: Unit, x: Text, y: Text, r: Text, q: Text)
    requires [open] + x + [close] + r == [open] + y + [close] + q
    ensures x + ([close] + r) == y + ([close] + q)
  {
    assert [open] + x + [close] + r == [open] + (x + ([close] + r));
    assert [open] + y + [close] + q == [open] + (y + ([close] + q));
    Cut([open], [open], x + ([close] + r), y + ([close] + q));
  }

  /** What follows the first element. */
  function AfterItem(items: seq<Json>, r: Text): Text
    requires items != []
  {
    if |items| == 1 then r else [COMMA] + (WriteItems(items[1..]) + r)
  }

  lemma ItemsSplit(items: seq<Json>, r: Text)
    requires items != []
    ensures WriteItems(items) + r == Write(items[0]) + AfterItem(items, r)
  {
    if |items| > 1 {
      Assoc(Write(items[0]), [COMMA] + WriteItems(items[1..]), r);
      Assoc(Write(items[0]), [COMMA], WriteItems(items[1..]));
      Assoc([COMMA], WriteItems(items[1..]), r);
    }
  }

  lemma {:induction false} ItemsPrefix(a: seq<Json>, b: seq<Json>, r: Text, q: Text)
    requires WriteItems(a) + r == WriteItems(b) + q && r != [] && q != [] && r[0] == CLOSE_ARRAY && q[0] == CLOSE_ARRAY
    ensures a == b && r == q
    decreases a
  {
    ItemsFirst(a, r);
    ItemsFirst(b, q);
    if a == [] {
      assert WriteItems(a) + r == r && WriteItems(b) + q == q;
    } else {
      ItemsSplit(a, r);
      ItemsSplit(b, q);
      assert Ends(AfterItem(a, r)) && Ends(AfterItem(b, q));
      hide WriteItems, Write, AfterItem;
      WritePrefix(a[0], b[0], AfterItem(a, r), AfterItem(b, q));
      ItemsRest(a, b, r, q);
      if |a| > 1 { ItemsPrefix(a[1..], b[1..], r, q); }
      SameHeadAndTail(a, b);
    }
  }

  lemma ItemsRest(a: seq<Json>, b: seq<Json>, r: Text, q: Text)
    requires a != [] && b != [] && AfterItem(a, r) == AfterItem(b, q)
    requires r != [] && q != [] && r[0] == CLOSE_ARRAY && q[0] == CLOSE_ARRAY
    ensures |a| == 1 <==> |b| == 1
    ensures if |a| == 1 then r == q else WriteItems(a[1..]) + r == WriteItems(b[1..]) + q
  {
    hide WriteItems;
    assert AfterItem(a, r)[0] == AfterItem(b, q)[0];
    if |a| > 1 { Cut([COMMA], [COMMA], WriteItems(a[1..]) + r, WriteItems(b[1..]) + q); }
  }

  lemma SameHeadAndTail<T>(a: seq<T>, b: seq<T>)
    requires a != [] && b != [] && a[0] == b[0] && (|a| == 1 <==> |b| == 1) && (|a| > 1 ==> a[1..] == b[1..])
    ensures a == b
  {
    assert a == [a[0]] + a[1..] && b == [b[0]] + b[1..];
  }

  lemma ItemsFirst(items: seq<Json>, r: Text)
    requires r != [] && r[0] == CLOSE_ARRAY
    ensures (WriteItems(items) + r)[0] == CLOSE_ARRAY <==> items == []
  {
    if items != [] {
      ItemsSplit(items, r);
      FirstUnit(items[0], AfterItem(items, r));
    }
  }

  function AfterField(fields: seq<Field>, r: Text): Text
    requires fields != []
  {
    if |fields| == 1 then r else [COMMA] + (WriteFields(fields[1..]) + r)
  }

  lemma FieldsSplit(fields: seq<Field>, r: Text)
    requires fields != []
    ensures WriteFields(fields) + r
      == Quoted(fields[0].key) + ([COLON] + (Write(fields[0].value) + AfterField(fields, r)))
  {
    hide Quoted, Write;
    var f := fields[0];
    if |fields| > 1 {
      Assoc(WriteField(f), [COMMA] + WriteFields(fields[1..]), r);
      Assoc(WriteField(f), [COMMA], WriteFields(fields[1..]));
      Assoc([COMMA], WriteFields(fields[1..]), r);
    }
    hide WriteFields;
    var x := AfterField(fields, r);
    Assoc(Quoted(f.key) + [COLON], Write(f.value), x);
    Assoc(Quoted(f.key), [COLON], Write(f.value) + x);
  }

  lemma {:induction false} FieldsPrefix(a: seq<Field>, b: seq<Field>, r: Text, q: Text)
    requires WriteFields(a) + r == WriteFields(b) + q && r != [] && q != [] && r[0] == CLOSE_OBJECT
      && q[0] == CLOSE_OBJECT
    ensures a == b && r == q
    decreases a
  {
    FieldsFirst(a, r);
    FieldsFirst(b, q);
    if a == [] {
      assert WriteFields(a) + r == r && WriteFields(b) + q == q;
    } else {
      FieldsSplit(a, r);
      FieldsSplit(b, q);
      var x, y := AfterField(a, r), AfterField(b, q);
      assert Ends(x) && Ends(y);
      hide WriteFields, Write, Quoted, AfterField;
      QuotedPrefix(a[0].key, b[0].key, [COLON] + (Write(a[0].value) + x), [COLON] + (Write(b[0].value) + y));
      Cut([COLON], [COLON], Write(a[0].value) + x, Write(b[0].value) + y);
      WritePrefix(a[0].value, b[0].value, x, y);
      FieldsRest(a, b, r, q);
      if |a| > 1 { FieldsPrefix(a[1..], b[1..], r, q); }
      SameHeadAndTail(a, b);
    }
  }

  lemma FieldsRest(a: seq<Field>, b: seq<Field>, r: Text, q: Text)
    requires a != [] && b != [] && AfterField(a, r) == AfterField(b, q)
    requires r != [] && q != [] && r[0] == CLOSE_OBJECT && q[0] == CLOSE_OBJECT
    ensures |a| == 1 <==> |b| == 1
    ensures if |a| == 1 then r == q else WriteFields(a[1..]) + r == WriteFields(b[1..]) + q
  {
    hide WriteFields;
    assert AfterField(a, r)[0] == AfterField(b, q)[0];
    if |a| > 1 { Cut([COMMA], [COMMA], WriteFields(a[1..]) + r, WriteFields(b[1..]) + q); }
  }

  lemma FieldsFirst(fields: seq<Field>, r: Text)
    requires r != [] && r[0] == CLOSE_OBJECT
    ensures (WriteFields(fields) + r)[0] == CLOSE_OBJECT <==> fields == []
  {
    if fields != [] {
      FieldsSplit(fields, r);
      assert Quoted(fields[0].key)[0] == QUOTE;
    }
  }

  lemma SamePrintSameCanon(a: Json, b: Json)
    ensures Print(a) == Print(b) <==> Canon(a) == Canon(b)
  {
    PrintWritesCanon(a);
    PrintWritesCanon(b);
    hide Print, Write, Canon;
    if Print(a) == Print(b) {
      assert Write(Canon(a)) + [] == Write(Canon(b)) + [];
      WritePrefix(Canon(a), Canon(b), [], []);
    }
  }

  /** Two values print the same exactly when they are equal up to the order of
      object keys. */
  lemma SamePrintSameValue(a: Json, b: Json)
    requires WellKeyed(a) && WellKeyed(b)
    ensures Print(a) == Print(b) <==> SameValue(a, b)
  {
    hide *;
    SamePrintSameCanon(a, b);
    CanonDecides(a, b);
  }
}
