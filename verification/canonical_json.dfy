/** The canonical JSON text that is fingerprinted (internal/emulation/cache.go, writeCanonicalJSON):
    no white space, object keys in sorted order. A `char` stands for one byte of UTF-8 text. */
module CanonicalJson {
  /** A value as json.Unmarshal yields it. `number` is the text json.Marshal prints for a float64. */
  datatype Json =
    | Null
    | Bool(b: bool)
    | Number(number: string)
    | Str(str: string)
    | Arr(elems: seq<Json>)
    | Obj(fields: map<string, Json>)

  // ---------------------------------------------------------------- sorted keys

  predicate LexLe(a: string, b: string) {
    a == [] || (b != [] && (a[0] < b[0] || (a[0] == b[0] && LexLe(a[1..], b[1..]))))
  }

  lemma {:induction false} LexTotal(a: string, b: string)
    ensures LexLe(a, b) || LexLe(b, a)
  {
    if a != [] && b != [] {
      LexTotal(a[1..], b[1..]);
    }
  }

  lemma {:induction false} LexAntisymmetric(a: string, b: string)
    requires LexLe(a, b) && LexLe(b, a)
    ensures a == b
  {
    if a != [] {
      LexAntisymmetric(a[1..], b[1..]);
      assert a == [a[0]] + a[1..] && b == [b[0]] + b[1..];
    }
  }

  lemma {:induction false} LexTransitive(a: string, b: string, c: string)
    requires LexLe(a, b) && LexLe(b, c)
    ensures LexLe(a, c)
  {
    if a != [] && a[0] == b[0] == c[0] {
      LexTransitive(a[1..], b[1..], c[1..]);
    }
  }

  predicate IsLeast(k: string, keys: set<string>) {
    k in keys && forall j :: j in keys ==> LexLe(k, j)
  }

  lemma LeastExists(keys: set<string>)
    requires keys != {}
    ensures exists k :: IsLeast(k, keys)
  {
    var x :| x in keys;
    var rest := keys - {x};
    LexTotal(x, x);
    if rest == {} {
      assert keys == {x};
      assert IsLeast(x, keys);
    } else {
      LeastExists(rest);
      var y :| IsLeast(y, rest);
      LexTotal(x, y);
      var k := if LexLe(x, y) then x else y;
      forall j | j in keys
        ensures LexLe(k, j)
      {
        if j != x && k == x {
          LexTransitive(x, y, j);
        }
      }
      assert IsLeast(k, keys);
    }
  }

  lemma LeastUnique(keys: set<string>)
    ensures forall k, j :: IsLeast(k, keys) && IsLeast(j, keys) ==> k == j
  {
    forall k, j | IsLeast(k, keys) && IsLeast(j, keys)
      ensures k == j
    {
      LexAntisymmetric(k, j);
    }
  }

  /** The keys of an object in increasing order. */
  function SortedKeys(keys: set<string>): (s: seq<string>)
    ensures forall k :: k in s <==> k in keys
    ensures forall i, j :: 0 <= i < j < |s| ==> s[i] != s[j] && LexLe(s[i], s[j])
    ensures |s| == |keys|
  {
    if keys == {} then []
    else
      LeastExists(keys);
      LeastUnique(keys);
      var k :| IsLeast(k, keys);
      [k] + SortedKeys(keys - {k})
  }

  // ---------------------------------------------------------------- the writer

  predicate NumberChar(c: char) {
    '0' <= c <= '9' || c == '-' || c == '+' || c == '.' || c == 'e' || c == 'E'
  }

  predicate NumberText(s: string) {
    s != [] && (s[0] == '-' || '0' <= s[0] <= '9') && AllNumberChars(s)
  }

  /** Every number in the value carries a number's text. */
  predicate WellFormed(v: Json) {
    match v
    case Number(n) => NumberText(n)
    case Arr(a) => forall i :: 0 <= i < |a| ==> WellFormed(a[i])
    case Obj(m) => forall k :: k in m ==> WellFormed(m[k])
    case _ => true
  }

  function HexDigit(k: nat): char
    requires k < 16
  {
    if k < 10 then (k + '0' as int) as char else (k - 10 + 'a' as int) as char
  }

  // The letter after the backslash for characters that have a short escape; 'u' for the others that need one.
  function EscapeLetter(c: char): char {
    if c == '\"' || c == '\\' then c
    else if c == '\n' then 'n'
    else if c == '\r' then 'r'
    else if c == '\t' then 't'
    else if c as int == 8 then 'b'
    else if c as int == 12 then 'f'
    else if c as int < 32 || c == '<' || c == '>' || c == '&' then 'u'
    else ' '
  }

  // One character inside a JSON string, escaped the way json.Marshal does.
  function Escape(c: char): (s: string)
    ensures s != [] && s[0] != '\"'
  {
    if EscapeLetter(c) == ' ' then [c]
    else if EscapeLetter(c) == 'u' then
      ['\\', 'u', '0', '0', HexDigit(c as int / 16), HexDigit(c as int % 16)]
    else ['\\', EscapeLetter(c)]
  }

  function Quote(s: string): (t: string)
    ensures t != []
  {
    if s == [] then "\"" else Escape(s[0]) + Quote(s[1..])
  }

  function Write(v: Json): (t: string)
    decreases v, 1
  {
    match v
    case Null => "null"
    case Bool(b) => if b then "true" else "false"
    case Number(n) => n
    case Str(s) => "\"" + Quote(s)
    case Arr(a) => "[" + WriteElems(v, 0)
    case Obj(m) => "{" + WriteFields(v, SortedKeys(m.Keys), true)
  }

  // The elements from index i on, and the closing bracket.
  function WriteElems(v: Json, i: nat): (t: string)
    requires v.Arr? && i <= |v.elems|
    decreases v, 0, |v.elems| - i
  {
    if i == |v.elems| then "]"
    else (if i == 0 then "" else ",") + Write(v.elems[i]) + WriteElems(v, i + 1)
  }

  function FieldText(key: string, value: string): string {
    "\"" + Quote(key) + ":" + value
  }

  // The fields under `keys`, and the closing brace.
  function WriteFields(v: Json, keys: seq<string>, first: bool): (t: string)
    requires v.Obj? && forall k :: k in keys ==> k in v.fields
    decreases v, 0, |keys|
  {
    if keys == [] then "}"
    else
      (if first then "" else ",") + FieldText(keys[0], Write(v.fields[keys[0]]))
      + WriteFields(v, keys[1..], false)
  }

  // ---------------------------------------------------------------- reading it back is unambiguous

  // What may follow a value: nothing that could extend a number.
  predicate Stops(rest: string) {
    rest == [] || !NumberChar(rest[0])
  }

  lemma SamePrefix(a: string, b: string, r: string, s: string)
    requires a + r == b + s && |a| == |b|
    ensures a == b && r == s
  {
    assert a == (a + r)[..|a|] && b == (b + s)[..|b|];
    assert r == (a + r)[|a|..] && s == (b + s)[|b|..];
  }

  lemma EscapeUnique(c: char, d: char, r: string, s: string)
    requires Escape(c) + r == Escape(d) + s
    ensures c == d && r == s
  {
    var x, y := Escape(c) + r, Escape(d) + s;
    assert x[0] == Escape(c)[0] && y[0] == Escape(d)[0];
    if EscapeLetter(c) != ' ' {
      assert x[1] == Escape(c)[1] && y[1] == Escape(d)[1];
    }
    SamePrefix(Escape(c), Escape(d), r, s);
    if EscapeLetter(c) == 'u' {
      assert Escape(c)[4] == Escape(d)[4] && Escape(c)[5] == Escape(d)[5];
    }
  }

  lemma Assoc(a: string, b: string, c: string)
    ensures a + b + c == a + (b + c)
  {
  }

  lemma {:induction false} QuoteHead(a: string)
    ensures Quote(a)[0] == '\"' <==> a == []
  {
  }

  lemma {:induction false} QuoteUnique(a: string, b: string, r: string, s: string)
    requires Quote(a) + r == Quote(b) + s
    ensures a == b && r == s
  {
    assert (Quote(a) + r)[0] == Quote(a)[0] && (Quote(b) + s)[0] == Quote(b)[0];
    QuoteHead(a);
    QuoteHead(b);
    if a == [] {
      SamePrefix(Quote(a), Quote(b), r, s);
    } else {
      QuoteStep(a, b, r, s);
      QuoteUnique(a[1..], b[1..], r, s);
      assert a == [a[0]] + a[1..] && b == [b[0]] + b[1..];
    }
  }

  lemma {:induction false} QuoteStep(a: string, b: string, r: string, s: string)
    requires a != [] && b != [] && Quote(a) + r == Quote(b) + s
    ensures a[0] == b[0] && Quote(a[1..]) + r == Quote(b[1..]) + s
  {
    Assoc(Escape(a[0]), Quote(a[1..]), r);
    Assoc(Escape(b[0]), Quote(b[1..]), s);
    EscapeUnique(a[0], b[0], Quote(a[1..]) + r, Quote(b[1..]) + s);
  }

  predicate AllNumberChars(s: string) {
    forall i :: 0 <= i < |s| ==> NumberChar(s[i])
  }

  lemma NextAfter(m: string, n: string, r: string, s: string)
    requires m + r == n + s && |m| < |n|
    ensures r != [] && r[0] == n[|m|]
  {
    assert (m + r)[|m|] == (n + s)[|m|];
  }

  lemma NumberUnique(m: string, n: string, r: string, s: string)
    requires AllNumberChars(m) && AllNumberChars(n)
    requires Stops(r) && Stops(s) && m + r == n + s
    ensures m == n && r == s
  {
    if |m| < |n| {
      NextAfter(m, n, r, s);
    } else if |n| < |m| {
      NextAfter(n, m, s, r);
    } else {
      SamePrefix(m, n, r, s);
    }
  }

  // Which sort of value a text starts.
  function HeadKind(c: char): nat {
    if c == 'n' then 1
    else if c == 't' then 2
    else if c == 'f' then 3
    else if c == '\"' then 4
    else if c == '[' then 5
    else if c == '{' then 6
    else if NumberChar(c) then 7
    else 0
  }

  function Kind(v: Json): nat {
    match v
    case Null => 1
    case Bool(b) => if b then 2 else 3
    case Number(_) => 7
    case Str(_) => 4
    case Arr(_) => 5
    case Obj(_) => 6
  }

  lemma {:induction false} WriteHead(v: Json)
    requires WellFormed(v)
    ensures Write(v) != [] && HeadKind(Write(v)[0]) == Kind(v)
  {
  }

  lemma {:induction false} ElemsHead(v: Json, i: nat)
    requires v.Arr? && WellFormed(v) && i <= |v.elems|
    ensures WriteElems(v, i) != [] && (WriteElems(v, i)[0] == ']' <==> i == |v.elems|)
    ensures i != 0 ==> Stops(WriteElems(v, i))
  {
    if i < |v.elems| {
      WriteHead(v.elems[i]);
    }
  }

  lemma {:induction false} FieldsHead(v: Json, keys: seq<string>, first: bool)
    requires v.Obj? && forall k :: k in keys ==> k in v.fields
    ensures var t := WriteFields(v, keys, first);
            t != [] && (t[0] == '}' <==> keys == []) && Stops(t)
  {
  }

  lemma PeelLeft(c: string, a: string, b: string, r: string, s: string)
    requires c + a + r == c + b + s
    ensures a + r == b + s
  {
    Assoc(c, a, r);
    Assoc(c, b, s);
    SamePrefix(c, c, a + r, b + s);
  }

  lemma PeelElem(c: string, a: string, b: string, x: string, y: string, r: string, s: string)
    requires c + a + x + r == c + b + y + s
    ensures a + (x + r) == b + (y + s)
  {
    assert c + a + x + r == c + (a + (x + r));
    assert c + b + y + s == c + (b + (y + s));
    SamePrefix(c, c, a + (x + r), b + (y + s));
  }

  lemma StopsConcat(x: string, r: string)
    requires x != [] && Stops(x)
    ensures Stops(x + r)
  {
  }

  /** Canonical text determines the value: no two values share a text, even followed by more text. */
  lemma {:induction false} WriteUnique(v: Json, w: Json, r: string, s: string)
    requires WellFormed(v) && WellFormed(w) && Stops(r) && Stops(s)
    requires Write(v) + r == Write(w) + s
    ensures v == w && r == s
    decreases v, 1
  {
    WriteHead(v);
    WriteHead(w);
    assert (Write(v) + r)[0] == Write(v)[0] && (Write(w) + s)[0] == Write(w)[0];
    assert Kind(v) == Kind(w);
    match v {
      case Null => SamePrefix(Write(v), Write(w), r, s);
      case Bool(_) => SamePrefix(Write(v), Write(w), r, s);
      case Number(n) => NumberUnique(n, w.number, r, s);
      case Str(a) =>
        PeelLeft("\"", Quote(a), Quote(w.str), r, s);
        QuoteUnique(a, w.str, r, s);
      case Arr(a) =>
        PeelLeft("[", WriteElems(v, 0), WriteElems(w, 0), r, s);
        ElemsUnique(v, w, 0, r, s);
      case Obj(m) =>
        var ks, js := SortedKeys(m.Keys), SortedKeys(w.fields.Keys);
        PeelLeft("{", WriteFields(v, ks, true), WriteFields(w, js, true), r, s);
        FieldsUnique(v, w, ks, js, true, r, s);
        SameFields(v, w, ks);
    }
  }

  lemma SameFields(v: Json, w: Json, ks: seq<string>)
    requires v.Obj? && w.Obj?
    requires forall k :: k in ks <==> k in v.fields
    requires forall k :: k in ks <==> k in w.fields
    requires forall k :: k in ks ==> v.fields[k] == w.fields[k]
    ensures v == w
  {
    assert v.fields.Keys == w.fields.Keys;
    assert v.fields == w.fields;
  }

  // Equal rests of two arrays go on, or end, together.
  lemma {:induction false} ElemsTogether(v: Json, w: Json, i: nat, r: string, s: string)
    requires v.Arr? && w.Arr? && WellFormed(v) && WellFormed(w)
    requires i <= |v.elems| && i <= |w.elems| && WriteElems(v, i) + r == WriteElems(w, i) + s
    ensures i == |v.elems| <==> i == |w.elems|
  {
    var x, y := WriteElems(v, i), WriteElems(w, i);
    ElemsHead(v, i);
    ElemsHead(w, i);
    assert x[0] == (x + r)[0] == (y + s)[0] == y[0];
  }

  lemma ElemsStep(v: Json, w: Json, i: nat, r: string, s: string)
    requires v.Arr? && w.Arr? && WellFormed(v) && WellFormed(w) && Stops(r) && Stops(s)
    requires i < |v.elems| && i < |w.elems| && WriteElems(v, i) + r == WriteElems(w, i) + s
    ensures var p, q := WriteElems(v, i + 1) + r, WriteElems(w, i + 1) + s;
            Stops(p) && Stops(q) && Write(v.elems[i]) + p == Write(w.elems[i]) + q
  {
    var p, q := WriteElems(v, i + 1), WriteElems(w, i + 1);
    PeelElem(if i == 0 then "" else ",", Write(v.elems[i]), Write(w.elems[i]), p, q, r, s);
    ElemsHead(v, i + 1);
    ElemsHead(w, i + 1);
    StopsConcat(p, r);
    StopsConcat(q, s);
  }

  lemma OneMoreElem(a: seq<Json>, b: seq<Json>, i: nat)
    requires i < |a| && i < |b| && a[..i] == b[..i] && a[i] == b[i]
    ensures a[..i + 1] == b[..i + 1]
  {
    assert a[..i + 1] == a[..i] + [a[i]];
    assert b[..i + 1] == b[..i] + [b[i]];
  }

  lemma {:induction false} ElemsUnique(v: Json, w: Json, i: nat, r: string, s: string)
    requires v.Arr? && w.Arr? && WellFormed(v) && WellFormed(w) && Stops(r) && Stops(s)
    requires i <= |v.elems| && i <= |w.elems| && v.elems[..i] == w.elems[..i]
    requires WriteElems(v, i) + r == WriteElems(w, i) + s
    ensures v == w && r == s
    decreases v, 0, |v.elems| - i
  {
    ElemsTogether(v, w, i, r, s);
    if i == |v.elems| {
      SamePrefix(WriteElems(v, i), WriteElems(w, i), r, s);
      assert v.elems == v.elems[..i] == w.elems[..i] == w.elems;
    } else {
      ElemsStep(v, w, i, r, s);
      WriteUnique(v.elems[i], w.elems[i], WriteElems(v, i + 1) + r, WriteElems(w, i + 1) + s);
      OneMoreElem(v.elems, w.elems, i);
      ElemsUnique(v, w, i + 1, r, s);
    }
  }

  lemma {:induction false} FieldsTogether(v: Json, w: Json, ks: seq<string>, js: seq<string>, first: bool, r: string, s: string)
    requires v.Obj? && w.Obj?
    requires (forall k :: k in ks ==> k in v.fields) && (forall k :: k in js ==> k in w.fields)
    requires WriteFields(v, ks, first) + r == WriteFields(w, js, first) + s
    ensures ks == [] <==> js == []
  {
    var x, y := WriteFields(v, ks, first), WriteFields(w, js, first);
    FieldsHead(v, ks, first);
    FieldsHead(w, js, first);
    assert x[0] == (x + r)[0] == (y + s)[0] == y[0];
  }

  lemma {:induction false} FieldsStep(v: Json, w: Json, ks: seq<string>, js: seq<string>, first: bool, r: string, s: string)
    requires v.Obj? && w.Obj? && Stops(r) && Stops(s) && ks != [] && js != []
    requires (forall k :: k in ks ==> k in v.fields) && (forall k :: k in js ==> k in w.fields)
    requires WriteFields(v, ks, first) + r == WriteFields(w, js, first) + s
    ensures var p, q := WriteFields(v, ks[1..], false) + r, WriteFields(w, js[1..], false) + s;
            && Stops(p) && Stops(q) && ks[0] == js[0]
            && Write(v.fields[ks[0]]) + p == Write(w.fields[js[0]]) + q
  {
    var k, j := ks[0], js[0];
    var p, q := WriteFields(v, ks[1..], false), WriteFields(w, js[1..], false);
    PeelElem(if first then "" else ",", FieldText(k, Write(v.fields[k])), FieldText(j, Write(w.fields[j])), p, q, r, s);
    FieldsHead(v, ks[1..], false);
    FieldsHead(w, js[1..], false);
    StopsConcat(p, r);
    StopsConcat(q, s);
    FieldTextUnique(k, j, Write(v.fields[k]), Write(w.fields[j]), p + r, q + s);
  }

  lemma {:induction false} FieldsUnique(v: Json, w: Json, ks: seq<string>, js: seq<string>, first: bool, r: string, s: string)
    requires v.Obj? && w.Obj? && WellFormed(v) && WellFormed(w) && Stops(r) && Stops(s)
    requires (forall k :: k in ks ==> k in v.fields) && (forall k :: k in js ==> k in w.fields)
    requires WriteFields(v, ks, first) + r == WriteFields(w, js, first) + s
    ensures ks == js && (forall k :: k in ks ==> v.fields[k] == w.fields[k]) && r == s
    decreases v, 0, |ks|
  {
    FieldsTogether(v, w, ks, js, first, r, s);
    if ks == [] {
      SamePrefix(WriteFields(v, ks, first), WriteFields(w, js, first), r, s);
    } else {
      FieldsStep(v, w, ks, js, first, r, s);
      var p, q := WriteFields(v, ks[1..], false) + r, WriteFields(w, js[1..], false) + s;
      WriteUnique(v.fields[ks[0]], w.fields[js[0]], p, q);
      FieldsUnique(v, w, ks[1..], js[1..], false, r, s);
      assert ks == [ks[0]] + ks[1..] && js == [js[0]] + js[1..];
    }
  }

  lemma Regroup(a: string, b: string, c: string, d: string, e: string)
    ensures a + b + c + d + e == a + (b + (c + (d + e)))
  {
  }

  lemma FieldTextUnique(k: string, j: string, t: string, u: string, r: string, s: string)
    requires FieldText(k, t) + r == FieldText(j, u) + s
    ensures k == j && t + r == u + s
  {
    Regroup("\"", Quote(k), ":", t, r);
    Regroup("\"", Quote(j), ":", u, s);
    SamePrefix("\"", "\"", Quote(k) + (":" + (t + r)), Quote(j) + (":" + (u + s)));
    QuoteUnique(k, j, ":" + (t + r), ":" + (u + s));
    SamePrefix(":", ":", t + r, u + s);
  }

  /** Two values have the same canonical text exactly when they are the same value. */
  lemma {:induction false} WriteInjective(v: Json, w: Json)
    requires WellFormed(v) && WellFormed(w)
    ensures Write(v) == Write(w) <==> v == w
  {
    if Write(v) == Write(w) {
      assert Write(v) + "" == Write(v) && Write(w) + "" == Write(w);
      WriteUnique(v, w, "", "");
    }
  }
}
