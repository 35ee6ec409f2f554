/** JSON documents as the registration workflow and the schema checker see them:
    integers only, strings of Unicode scalar values, objects as finite maps. */
module Documents {
  datatype Json =
    | Null
    | Bool(b: bool)
    | Number(n: int)
    | Text(s: string)
    | Array(items: seq<Json>)
    | Object(fields: map<string, Json>)
}

/** Decimal numerals as strconv.Itoa writes them. */
module Decimals {
  predicate IsDigit(c: char) { '0' <= c <= '9' }

  function Digit(n: nat): char
    requires n < 10
  {
    ('0' as int + n) as char
  }

  function Digits(n: nat): (r: string)
    ensures |r| > 0
    ensures forall i | 0 <= i < |r| :: IsDigit(r[i])
  {
    if n < 10 then [Digit(n)] else Digits(n / 10) + [Digit(n % 10)]
  }

  /** The number a string of digits denotes. */
  function Value(s: string): nat
    requires forall i | 0 <= i < |s| :: IsDigit(s[i])
  {
    if s == [] then 0 else
      assert IsDigit(s[|s| - 1]);
      Value(s[..|s| - 1]) * 10 + (s[|s| - 1] as int - '0' as int)
  }

  lemma {:induction false} ValueOfDigits(n: nat)
    ensures Value(Digits(n)) == n
  {
    var r := Digits(n);
    if n < 10 {
      assert r[..0] == [];
    } else {
      ValueOfDigits(n / 10);
      assert r[..|r| - 1] == Digits(n / 10);
    }
  }

  predicate AllDigits(s: string) { forall i | 0 <= i < |s| :: IsDigit(s[i]) }

  /** "0", or digits without a leading zero. */
  predicate Numeral(t: string) { t != [] && AllDigits(t) && (t[0] == '0' ==> t == "0") }

  /** Digits without a leading zero are the numeral of their value. */
  lemma {:induction false} NumeralUnique(t: string)
    requires Numeral(t)
    ensures Digits(Value(t)) == t
  {
    var last := |t| - 1;
    assert t == t[..last] + [t[last]] && IsDigit(t[last]);
    if last > 0 {
      assert Numeral(t[..last]) by { assert t[..last][0] == t[0]; }
      NumeralUnique(t[..last]);
      Positive(t[..last]);
    }
  }

  lemma {:induction false} Positive(t: string)
    requires t != [] && AllDigits(t) && t[0] != '0'
    ensures Value(t) > 0
  {
    assert IsDigit(t[0]);
    if |t| > 1 {
      assert t[..|t| - 1][0] == t[0];
      Positive(t[..|t| - 1]);
    }
  }

  lemma {:induction false} NumeralShape(n: nat)
    ensures Numeral(Digits(n))
  {
    if n >= 10 {
      NumeralShape(n / 10);
      assert Digits(n)[0] == Digits(n / 10)[0];
      assert Digits(n / 10) != "0" by { ValueOfDigits(n / 10); }
    }
  }

  /** The spelling of numerals, digit by digit. */
  lemma DigitsSpelling(n: nat, d: nat)
    requires d < 10
    ensures Digits(d) == ["0123456789"[d]]
    ensures n > 0 ==> Digits(10 * n + d) == Digits(n) + ["0123456789"[d]]
  {
    assert (10 * n + d) / 10 == n && (10 * n + d) % 10 == d;
  }

  /** How many digits a text starts with. */
  function Span(s: string): nat {
    if s == [] || !IsDigit(s[0]) then 0 else 1 + Span(s[1..])
  }

  lemma {:induction false} SpanOfDigits(d: string, u: string)
    requires forall i | 0 <= i < |d| :: IsDigit(d[i])
    requires u == [] || !IsDigit(u[0])
    ensures Span(d + u) == |d|
  {
    if d == [] {
      assert d + u == u;
    } else {
      assert (d + u)[1..] == d[1..] + u;
      SpanOfDigits(d[1..], u);
    }
  }

  function Signed(negative: bool, d: string): string { if negative then "-" + d else d }

  lemma AfterSign(d: string, u: string)
    ensures ("-" + d + u)[0] == '-' && ("-" + d + u)[1..] == d + u
  {}

  function Decimal(n: int): string {
    Signed(n < 0, Digits(if n < 0 then -n else n))
  }

  /** Negative numbers, and no others, have a sign before the numeral. */
  lemma DecimalSpelling(n: nat)
    ensures Decimal(n) == Digits(n)
    ensures n > 0 ==> Decimal(0 - n) == "-" + Digits(n)
  {}

}

/** sort.Strings on distinct keys: code-point order is the byte order of UTF-8. */
module KeyOrder {
  predicate Precedes(a: string, b: string) {
    b != [] && (a == [] || a[0] < b[0] || (a[0] == b[0] && Precedes(a[1..], b[1..])))
  }

  /** Code-point order: a proper prefix comes first, otherwise the first difference decides. */
  lemma {:induction false} PrecedesExactly(a: string, b: string)
    ensures Precedes(a, b) <==>
      exists i: nat :: i <= |a| && i < |b| && a[..i] == b[..i] && (i == |a| || a[i] < b[i])
  {
    if a != [] && b != [] && a[0] == b[0] {
      PrecedesExactly(a[1..], b[1..]);
      if Precedes(a, b) {
        var i: nat :| i <= |a[1..]| && i < |b[1..]| && a[1..][..i] == b[1..][..i]
          && (i == |a[1..]| || a[1..][i] < b[1..][i]);
        assert a[..i + 1] == [a[0]] + a[1..][..i] && b[..i + 1] == [b[0]] + b[1..][..i];
      }
      if i: nat :| i <= |a| && i < |b| && a[..i] == b[..i] && (i == |a| || a[i] < b[i]) {
        assert i > 0;
        assert a[1..][..i - 1] == a[..i][1..] && b[1..][..i - 1] == b[..i][1..];
      }
    } else if Precedes(a, b) {
      assert a[..0] == b[..0];
    }
  }

  ghost predicate Sorted(s: seq<string>) {
    forall i, j | 0 <= i < j < |s| :: Precedes(s[i], s[j])
  }

  ghost function Elements(s: seq<string>): set<string> { set k | k in s }

  lemma {:induction false} Total(a: string, b: string)
    ensures a == b || Precedes(a, b) || Precedes(b, a)
  {
    if a != [] && b != [] && a[0] == b[0] {
      Total(a[1..], b[1..]);
      assert a == [a[0]] + a[1..] && b == [b[0]] + b[1..];
    }
  }

  lemma {:induction false} Irreflexive(a: string)
    ensures !Precedes(a, a)
  {
    if a != [] { Irreflexive(a[1..]); }
  }

  lemma {:induction false} Transitive(a: string, b: string, c: string)
    requires Precedes(a, b) && Precedes(b, c)
    ensures Precedes(a, c)
  {
    if a != [] && a[0] == b[0] == c[0] { Transitive(a[1..], b[1..], c[1..]); }
  }

  ghost predicate Least(k: string, ks: set<string>) {
    k in ks && forall x | x in ks && x != k :: Precedes(k, x)
  }

  lemma {:induction false} LeastExists(ks: set<string>) returns (k: string)
    requires ks != {}
    ensures Least(k, ks)
  {
    var x :| x in ks;
    if ks == {x} {
      k := x;
    } else {
      var rest := ks - {x};
      assert rest != {};
      k := LeastExists(rest);
      Total(k, x);
      if Precedes(x, k) {
        forall y | y in ks && y != x ensures Precedes(x, y) {
          if y != k { Transitive(x, k, y); }
        }
        k := x;
      }
    }
  }

  ghost function SortedKeys(ks: set<string>): (r: seq<string>)
    ensures Elements(r) == ks
    ensures Sorted(r)
  {
    if ks == {} then []
    else
      assert exists k :: Least(k, ks) by { var k := LeastExists(ks); }
      var k :| Least(k, ks);
      var rest := SortedKeys(ks - {k});
      assert forall i | 0 <= i < |rest| :: rest[i] in Elements(rest);
      var r := [k] + rest;
      assert Elements(r) == {k} + Elements(rest) by {
        assert r[0] == k && r[1..] == rest;
        assert forall x :: x in r <==> x == k || x in rest;
      }
      r
  }

  /** A sorted listing is determined by the keys alone, whatever order they came in. */
  lemma {:induction false} SortedUnique(a: seq<string>, b: seq<string>)
    requires Sorted(a) && Sorted(b) && Elements(a) == Elements(b)
    ensures a == b
  {
    assert |a| > 0 ==> a[0] in Elements(a);
    assert |b| > 0 ==> b[0] in Elements(b);
    if a != [] {
      if a[0] != b[0] {
        var i :| 0 <= i < |b| && b[i] == a[0];
        var j :| 0 <= j < |a| && a[j] == b[0];
        Transitive(a[0], b[0], a[0]);
        Irreflexive(a[0]);
        assert false;
      }
      HeadDistinct(a);
      HeadDistinct(b);
      SortedUnique(a[1..], b[1..]);
    }
  }

  lemma HeadDistinct(a: seq<string>)
    requires a != [] && Sorted(a)
    ensures Elements(a[1..]) == Elements(a) - {a[0]}
  {
    Irreflexive(a[0]);
    assert a == [a[0]] + a[1..];
    forall k | k in a[1..] ensures k != a[0] {
      var i :| 1 <= i < |a| && a[i] == k;
      assert Precedes(a[0], a[i]);
    }
  }

  /** Stands for sort.Strings. */
  method SortStrings(keys: seq<string>) returns (out: seq<string>)
    requires forall i, j | 0 <= i < j < |keys| :: keys[i] != keys[j]
    ensures Sorted(out) && Elements(out) == Elements(keys)
  {
    out := [];
    for n := 0 to |keys|
      invariant Sorted(out) && Elements(out) == Elements(keys[..n])
    {
      assert keys[..n + 1] == keys[..n] + [keys[n]];
      assert keys[n] !in Elements(keys[..n]);
      out := Insert(out, keys[n]);
    }
    assert keys[..|keys|] == keys;
  }

  method Insert(s: seq<string>, k: string) returns (out: seq<string>)
    requires Sorted(s) && k !in Elements(s)
    ensures Sorted(out) && Elements(out) == Elements(s) + {k}
  {
    var i := 0;
    while i < |s| && Precedes(s[i], k)
      invariant 0 <= i <= |s|
      invariant forall j | 0 <= j < i :: Precedes(s[j], k)
    {
      i := i + 1;
    }
    forall j | i <= j < |s| ensures Precedes(k, s[j]) {
      assert s[i] in Elements(s);
      Total(s[i], k);
      if j > i { Transitive(k, s[i], s[j]); }
    }
    out := s[..i] + [k] + s[i..];
    InsertedSorted(s, i, k, out);
  }

  lemma InsertedSorted(s: seq<string>, i: nat, k: string, out: seq<string>)
    requires Sorted(s) && i <= |s| && out == s[..i] + [k] + s[i..]
    requires forall j | 0 <= j < i :: Precedes(s[j], k)
    requires forall j | i <= j < |s| :: Precedes(k, s[j])
    ensures Sorted(out) && Elements(out) == Elements(s) + {k}
  {
    forall a, b | 0 <= a < b < |out| ensures Precedes(out[a], out[b]) {
      var x, y := if a < i then a else a - 1, if b < i then b else b - 1;
      if a == i {
        assert out[b] == s[y];
      } else if b == i {
        assert out[a] == s[x];
      } else {
        assert out[a] == s[x] && out[b] == s[y];
      }
    }
    assert s == s[..i] + s[i..];
    assert forall x :: x in out <==> x in s || x == k;
  }
}

/** writeCanonical and documentDigest of the registration workflow. */
module CanonicalJson {
  import opened Optional
  import opened Documents
  import opened Decimals
  import opened KeyOrder
  import opened JsonReader

  // ---- String escapes, section 7 of RFC 8259 ----

  function HexDigit(n: nat): char
    requires n < 16
  {
    if n < 10 then ('0' as int + n) as char else ('a' as int + n - 10) as char
  }

  function Escape(c: char): (r: string)
    ensures |r| > 0 && r[0] != '"'
  {
    if c == '"' then "\\\""
    else if c == '\\' then "\\\\"
    else if c == 8 as char then "\\b"
    else if c == 12 as char then "\\f"
    else if c == '\n' then "\\n"
    else if c == '\r' then "\\r"
    else if c == '\t' then "\\t"
    else if c < 32 as char then "\\u00" + [HexDigit(c as nat / 16), HexDigit(c as nat % 16)]
    else [c]
  }

  function Escaped(s: string): string {
    if s == [] then [] else Escape(s[0]) + Escaped(s[1..])
  }

  function Quoted(s: string): string { "\"" + Escaped(s) + "\"" }

  // ---- The canonical text ----

  ghost function Canon(v: Json): string
    decreases v, 0
  {
    match v
    case Null => "null"
    case Bool(b) => if b then "true" else "false"
    case Number(n) => Decimal(n)
    case Text(s) => Quoted(s)
    case Array(items) => "[" + Items(items) + "]"
    case Object(fields) => "{" + Members(v, SortedKeys(fields.Keys)) + "}"
  }

  ghost function Items(items: seq<Json>): string
    decreases items, 0
  {
    if items == [] then ""
    else if |items| == 1 then Canon(items[0])
    else Canon(items[0]) + "," + Items(items[1..])
  }

  ghost function Member(v: Json, k: string): string
    requires v.Object? && k in v.fields
    decreases v, 0, 0
  {
    Quoted(k) + ":" + Canon(v.fields[k])
  }

  ghost function Members(v: Json, keys: seq<string>): string
    requires v.Object? && forall k | k in keys :: k in v.fields
    decreases v, 0, 1, |keys|
  {
    if keys == [] then ""
    else if |keys| == 1 then Member(v, keys[0])
    else Member(v, keys[0]) + "," + Members(v, keys[1..])
  }

  // ---- Pieces of the text ----

  lemma QuoteAfter(e: string, rest: string, u: string)
    ensures (e + rest) + "\"" + u == e + (rest + "\"" + u)
    ensures e != [] ==> ((e + rest) + "\"" + u)[0] == e[0]
    ensures ([] + "\"" + u)[0] == '"' && ([] + "\"" + u)[1..] == u
  {}

  lemma EscapedHead(s: string, u: string)
    ensures (Escaped(s) + "\"" + u)[0] == '"' <==> s == []
    ensures s == [] ==> (Escaped(s) + "\"" + u)[1..] == u
    ensures s != [] ==> Escaped(s) + "\"" + u == Escape(s[0]) + (Escaped(s[1..]) + "\"" + u)
  {
    var e, rest := if s == [] then "" else Escape(s[0]), if s == [] then "" else Escaped(s[1..]);
    assert s != [] ==> Escaped(s) == e + rest && e[0] != '"';
    QuoteAfter(e, rest, u);
  }

  /** What may follow a value: the end, a separator or a closing bracket. */
  predicate Stops(u: string) { u == [] || u[0] in {',', ']', '}'} }

  /** Texts of different kinds of value start differently. */
  function Kind(c: char): nat {
    if c == 'n' then 0
    else if c == 't' || c == 'f' then 1
    else if c == '-' || IsDigit(c) then 2
    else if c == '"' then 3
    else if c == '[' then 4
    else if c == '{' then 5
    else 6
  }

  function KindOf(v: Json): nat {
    match v
    case Null => 0
    case Bool(_) => 1
    case Number(_) => 2
    case Text(_) => 3
    case Array(_) => 4
    case Object(_) => 5
  }

  lemma Starts(v: Json)
    ensures Canon(v) != [] && Kind(Canon(v)[0]) == KindOf(v)
  {
    if v.Number? {
      var d := Digits(if v.n < 0 then -v.n else v.n);
      assert IsDigit(d[0]);
    }
  }

  lemma Unprefix(a: string, u: string)
    ensures (a + u)[|a|..] == u
  {}

  lemma Unwrap(open: string, a: string, close: string, u: string)
    requires |open| == 1
    ensures ((open + a + close) + u)[1..] == a + close + u
  {}

  lemma Regroup(a: string, b: string, c: string, d: string, u: string)
    ensures (a + b + c) + d + u == a + (b + c + d + u)
    ensures a + d + u == a + (d + u)
  {
    assert (a + b + c) + d + u == a + (b + c + d + u);
    assert a + d + u == a + (d + u);
  }

  /** What follows the first item of a non-empty list. */
  ghost function ItemsTail(items: seq<Json>, u: string): (r: string)
    requires items != []
    ensures |r| > 0 && r[0] == if |items| == 1 then ']' else ','
    ensures Stops(r)
    ensures r[1..] == if |items| == 1 then u else Items(items[1..]) + "]" + u
  {
    if |items| == 1 then
      Unprefix("]", u);
      "]" + u
    else
      Unwrap(",", Items(items[1..]), "]", u);
      "," + Items(items[1..]) + "]" + u
  }

  lemma ItemsSplit(items: seq<Json>, u: string)
    requires items != []
    ensures Items(items) + "]" + u == Canon(items[0]) + ItemsTail(items, u)
  {
    Regroup(Canon(items[0]), ",", if |items| > 1 then Items(items[1..]) else "", "]", u);
  }

  lemma ItemsHead(items: seq<Json>, u: string)
    ensures (Items(items) + "]" + u)[0] == ']' <==> items == []
    ensures items == [] ==> (Items(items) + "]" + u)[1..] == u
  {
    if items == [] {
      assert Items(items) + "]" + u == "]" + u;
    } else {
      ItemsSplit(items, u);
      Starts(items[0]);
    }
  }

  ghost function MembersTail(o: Json, ks: seq<string>, u: string): (r: string)
    requires o.Object? && ks != [] && forall k | k in ks :: k in o.fields
    ensures |r| > 0 && r[0] == if |ks| == 1 then '}' else ','
    ensures Stops(r)
    ensures r[1..] == if |ks| == 1 then u else Members(o, ks[1..]) + "}" + u
  {
    if |ks| == 1 then
      Unprefix("}", u);
      "}" + u
    else
      Unwrap(",", Members(o, ks[1..]), "}", u);
      "," + Members(o, ks[1..]) + "}" + u
  }

  /** A member's value with what follows it, behind the colon. */
  ghost function ValueTail(o: Json, ks: seq<string>, u: string): (r: string)
    requires o.Object? && ks != [] && forall k | k in ks :: k in o.fields
    ensures |r| > 0 && r[0] == ':' && r[1..] == Canon(o.fields[ks[0]]) + MembersTail(o, ks, u)
  {
    Unprefix(":", Canon(o.fields[ks[0]]) + MembersTail(o, ks, u));
    ":" + (Canon(o.fields[ks[0]]) + MembersTail(o, ks, u))
  }

  lemma MembersSplit(o: Json, ks: seq<string>, u: string)
    requires o.Object? && ks != [] && forall k | k in ks :: k in o.fields
    ensures Members(o, ks) + "}" + u == Quoted(ks[0]) + ValueTail(o, ks, u)
  {
    var q, c := Quoted(ks[0]), Canon(o.fields[ks[0]]);
    Regroup(Member(o, ks[0]), ",", if |ks| > 1 then Members(o, ks[1..]) else "", "}", u);
    Associate(q, ":", c, MembersTail(o, ks, u));
  }

  lemma Associate(a: string, b: string, c: string, d: string)
    ensures (a + b + c) + d == a + (b + (c + d))
  {}

  lemma MembersHead(o: Json, ks: seq<string>, u: string)
    requires o.Object? && forall k | k in ks :: k in o.fields
    ensures (Members(o, ks) + "}" + u)[0] == '}' <==> ks == []
    ensures ks == [] ==> (Members(o, ks) + "}" + u)[1..] == u
  {
    if ks == [] {
      assert Members(o, ks) + "}" + u == "}" + u;
    } else {
      MembersSplit(o, ks, u);
    }
  }

  // ---- What the text means ----

  /** How a character is spelled inside a string. */
  lemma EscapeSpelling(c: char)
    ensures c >= 0x20 as char && c != '"' && c != '\\' ==> Escape(c) == [c]
    ensures Escape('"') == "\\\"" && Escape('\\') == "\\\\"
    ensures Escape(8 as char) == "\\b" && Escape(12 as char) == "\\f" && Escape(10 as char) == "\\n"
    ensures Escape(13 as char) == "\\r" && Escape(9 as char) == "\\t"
    ensures c < 0x20 as char && c as int !in {8, 9, 10, 12, 13} ==>
      Escape(c) == "\\u00" + [HEX[c as int / 16], HEX[c as int % 16]]
  {}

  lemma {:induction false} TextReadsBack(t: string, u: string)
    ensures ReadText(Escaped(t) + "\"" + u) == Some((t, u))
  {
    var s := Escaped(t) + "\"" + u;
    EscapedHead(t, u);
    if t != [] {
      var e, rest := Escape(t[0]), Escaped(t[1..]) + "\"" + u;
      TextReadsBack(t[1..], u);
      EscapeReads(t[0], rest);
      assert t == [t[0]] + t[1..];
    }
  }

  /** One spelled character is read as that character. */
  lemma EscapeReads(c: char, rest: string)
    ensures ReadText(Escape(c) + rest) == Prepend(c, ReadText(rest))
  {
    var e := Escape(c);
    var s := e + rest;
    EscapeSpelling(c);
    assert s[|e|..] == rest && s[0] == e[0];
    if |e| == 6 {
      assert s[1] == 'u';
      assert s[2..6] == "00" + [HEX[c as int / 16], HEX[c as int % 16]];
    } else if |e| == 2 {
      assert s[1] == e[1];
    }
  }

  lemma NumberReadsBack(n: int, u: string)
    requires Stops(u)
    ensures ReadNumber(Decimal(n) + u) == Some((n, u))
  {
    var p: nat := if n < 0 then -n else n;
    var d := Digits(p);
    NumeralShape(p);
    ValueOfDigits(p);
    SpanOfDigits(d, u);
    assert IsDigit(d[0]);
    if n < 0 { AfterSign(d, u); }
    assert (d + u)[..|d|] == d && (d + u)[|d|..] == u;
  }

  ghost function Pairs(o: Json, ks: seq<string>): seq<(string, Json)>
    requires o.Object? && forall k | k in ks :: k in o.fields
  {
    if ks == [] then [] else [(ks[0], o.fields[ks[0]])] + Pairs(o, ks[1..])
  }

  lemma {:induction false} FieldsOfPairs(o: Json, ks: seq<string>)
    requires o.Object? && forall k | k in ks :: k in o.fields
    ensures Fields(Pairs(o, ks)) == map k | k in ks :: o.fields[k]
  {
    if ks != [] {
      var pairs := Pairs(o, ks);
      assert pairs[1..] == Pairs(o, ks[1..]);
      FieldsOfPairs(o, ks[1..]);
      assert forall k :: k in ks <==> k == ks[0] || k in ks[1..];
    }
  }

  /** The first item of a text, and how the reading goes on. */
  lemma ReadsItem(s: string, v: Json, t: string)
    requires ReadValue(s) == Some((v, t)) && t != []
    ensures t[0] == ']' ==> ReadItems(s) == Some(([v], t[1..]))
    ensures t[0] == ',' && ReadItems(t[1..]).Some? ==>
      ReadItems(s) == Some(([v] + ReadItems(t[1..]).value.0, ReadItems(t[1..]).value.1))
  {}

  lemma {:induction false} ItemsReadBack(items: seq<Json>, u: string)
    requires items != []
    ensures ReadItems(Items(items) + "]" + u) == Some((items, u))
    decreases items, 0
  {
    var s, t := Items(items) + "]" + u, ItemsTail(items, u);
    ItemsSplit(items, u);
    ReadsBack(items[0], t);
    if |items| > 1 { ItemsReadBack(items[1..], u); }
    ReadsItem(s, items[0], t);
    assert items == [items[0]] + items[1..];
    assert |items| == 1 ==> items == [items[0]];
  }

  /** The first member of a text, and how the reading goes on. */
  lemma ReadsMember(s: string, key: string, q: string, v: Json, t: string)
    requires s != [] && s[0] == '"' && ReadText(s[1..]) == Some((key, q))
    requires q != [] && q[0] == ':' && ReadValue(q[1..]) == Some((v, t)) && t != []
    ensures t[0] == '}' ==> ReadMembers(s) == Some(([(key, v)], t[1..]))
    ensures t[0] == ',' && ReadMembers(t[1..]).Some? ==>
      ReadMembers(s) == Some(([(key, v)] + ReadMembers(t[1..]).value.0, ReadMembers(t[1..]).value.1))
  {}

  lemma {:induction false} MembersReadBack(o: Json, ks: seq<string>, u: string)
    requires o.Object? && ks != [] && forall k | k in ks :: k in o.fields
    ensures ReadMembers(Members(o, ks) + "}" + u) == Some((Pairs(o, ks), u))
    decreases o, 0, |ks|
  {
    var s := Members(o, ks) + "}" + u;
    MembersSplit(o, ks, u);
    var q := ValueTail(o, ks, u);
    Unwrap("\"", Escaped(ks[0]), "\"", q);
    TextReadsBack(ks[0], q);
    ReadsBack(o.fields[ks[0]], MembersTail(o, ks, u));
    if |ks| > 1 { MembersReadBack(o, ks[1..], u); } else { assert Pairs(o, ks[1..]) == []; }
    assert s == Quoted(ks[0]) + q && s[0] == '"';
    assert ReadText(s[1..]) == Some((ks[0], q));
    ReadsMember(s, ks[0], q, o.fields[ks[0]], MembersTail(o, ks, u));
    var first := [(ks[0], o.fields[ks[0]])];
    assert Pairs(o, ks) == first + Pairs(o, ks[1..]);
    if |ks| == 1 {
      assert first + [] == first;
    } else {
      assert ReadMembers(MembersTail(o, ks, u)[1..]) == Some((Pairs(o, ks[1..]), u));
    }
  }

  /** Read back, the canonical text gives the value and leaves what follows it. */
  lemma {:induction false} ReadsBack(v: Json, u: string)
    requires Stops(u)
    ensures ReadValue(Canon(v) + u) == Some((v, u))
    decreases v, 1
  {
    var s := Canon(v) + u;
    Starts(v);
    assert s[0] == Canon(v)[0];
    Unprefix(Canon(v), u);
    match v {
      case Null => assert s[..4] == "null";
      case Bool(b) => assert s[..|Canon(v)|] == Canon(v);
      case Number(n) => NumberReadsBack(n, u);
      case Text(t) =>
        Unwrap("\"", Escaped(t), "\"", u);
        TextReadsBack(t, u);
      case Array(items) =>
        Unwrap("[", Items(items), "]", u);
        ItemsHead(items, u);
        assert s[1..][0] == s[1];
        if items == [] { assert s[1..][1..] == s[2..]; } else { ItemsReadBack(items, u); }
      case Object(fields) => ObjectReadsBack(v, u);
    }
  }

  /** An object's text from the text of its members. */
  lemma ReadsObject(s: string, members: seq<(string, Json)>, u: string)
    requires |s| > 1 && s[0] == '{' && s[1] != '}' && ReadMembers(s[1..]) == Some((members, u))
    ensures ReadValue(s) == Some((Object(Fields(members)), u))
  {}

  lemma AllFields(o: Json, ks: seq<string>)
    requires o.Object? && Elements(ks) == o.fields.Keys
    ensures forall k | k in ks :: k in o.fields
    ensures Fields(Pairs(o, ks)) == o.fields
  {
    assert forall k :: k in ks <==> k in Elements(ks);
    FieldsOfPairs(o, ks);
  }

  lemma ObjectReadsBack(v: Json, u: string)
    requires v.Object?
    ensures ReadValue(Canon(v) + u) == Some((v, u))
    decreases v, 0, |SortedKeys(v.fields.Keys)| + 1
  {
    var ks := SortedKeys(v.fields.Keys);
    var s := Canon(v) + u;
    Unwrap("{", Members(v, ks), "}", u);
    MembersHead(v, ks, u);
    assert s[0] == '{' && s[1..][0] == s[1];
    if ks == [] {
      assert s[1..][1..] == s[2..];
      assert v.fields == map[];
    } else {
      MembersReadBack(v, ks, u);
      AllFields(v, ks);
      ReadsObject(s, Pairs(v, ks), u);
    }
  }

  /** The members of an object are read in ascending order of their names, each once. */
  lemma KeysAscend(fields: map<string, Json>, u: string) returns (members: seq<(string, Json)>)
    requires fields != map[]
    ensures ReadMembers((Canon(Object(fields)) + u)[1..]) == Some((members, u))
    ensures Fields(members) == fields
    ensures forall i, j | 0 <= i < j < |members| :: Precedes(members[i].0, members[j].0)
  {
    var v := Object(fields);
    var ks := SortedKeys(fields.Keys);
    assert ks != [] by { assert Elements(ks) == fields.Keys; }
    Unwrap("{", Members(v, ks), "}", u);
    MembersReadBack(v, ks, u);
    members := Pairs(v, ks);
    AllFields(v, ks);
    PairsInOrder(v, ks);
  }

  lemma {:induction false} PairsInOrder(o: Json, ks: seq<string>)
    requires o.Object? && forall k | k in ks :: k in o.fields
    ensures |Pairs(o, ks)| == |ks|
    ensures forall i | 0 <= i < |ks| :: Pairs(o, ks)[i] == (ks[i], o.fields[ks[i]])
  {
    if ks != [] { PairsInOrder(o, ks[1..]); }
  }

  /** So equal texts come from equal values, and each text says where it ends. */
  lemma CanonUnique(a: Json, b: Json, u: string, v: string)
    requires Canon(a) + u == Canon(b) + v
    requires Stops(u) && Stops(v)
    ensures a == b && u == v
  {
    ReadsBack(a, u);
    ReadsBack(b, v);
  }

  /** The canonical text determines the document. */
  lemma CanonInjective(a: Json, b: Json)
    requires Canon(a) == Canon(b)
    ensures a == b
  {
    CanonUnique(a, b, [], []);
  }

  lemma QuotedUnique(s: string, t: string, u: string, v: string)
    requires Quoted(s) + u == Quoted(t) + v
    ensures s == t && u == v
  {
    Unwrap("\"", Escaped(s), "\"", u);
    Unwrap("\"", Escaped(t), "\"", v);
    TextReadsBack(s, u);
    TextReadsBack(t, v);
  }

  lemma ItemsUnique(a: seq<Json>, b: seq<Json>, u: string, v: string)
    requires Items(a) + "]" + u == Items(b) + "]" + v
    ensures a == b && u == v
  {
    ItemsHead(a, u);
    ItemsHead(b, v);
    if a != [] {
      ItemsReadBack(a, u);
      ItemsReadBack(b, v);
    }
  }

  lemma MembersUnique(o: Json, ks: seq<string>, p: Json, ls: seq<string>, u: string, v: string)
    requires o.Object? && forall k | k in ks :: k in o.fields
    requires p.Object? && forall k | k in ls :: k in p.fields
    requires Members(o, ks) + "}" + u == Members(p, ls) + "}" + v
    ensures ks == ls && u == v
    ensures forall k | k in ks :: o.fields[k] == p.fields[k]
  {
    MembersHead(o, ks, u);
    MembersHead(p, ls, v);
    if ks != [] {
      MembersReadBack(o, ks, u);
      MembersReadBack(p, ls, v);
      PairsInOrder(o, ks);
      PairsInOrder(p, ls);
      assert ks == ls;
    }
  }

  // ---- The writer ----

  lemma {:induction false} EscapedSnoc(s: string, c: char)
    ensures Escaped(s + [c]) == Escaped(s) + Escape(c)
  {
    if s == [] {
      assert s + [c] == [c] && [c][1..] == [];
      assert Escaped([c]) == Escape(c) + Escaped([]);
    } else {
      assert (s + [c])[1..] == s[1..] + [c];
      EscapedSnoc(s[1..], c);
      assert Escape(s[0]) + (Escaped(s[1..]) + Escape(c)) == (Escape(s[0]) + Escaped(s[1..])) + Escape(c);
    }
  }

  /** Appending to a builder that already holds b and x. */
  lemma Append(b: string, x: string, y: string)
    ensures (b + x) + y == b + (x + y)
  {}

  method WriteCanonicalString(b: string, value: string) returns (out: string)
    ensures out == b + Quoted(value)
  {
    out := b + "\"";
    ghost var text := "\"" + Escaped(value[..0]);
    assert text == "\"";
    for i := 0 to |value|
      invariant out == b + text && text == "\"" + Escaped(value[..i])
    {
      assert value[..i + 1] == value[..i] + [value[i]];
      EscapedSnoc(value[..i], value[i]);
      Append(b, text, Escape(value[i]));
      Append("\"", Escaped(value[..i]), Escape(value[i]));
      out, text := out + Escape(value[i]), text + Escape(value[i]);
    }
    assert value[..|value|] == value;
    Append(b, text, "\"");
    out := out + "\"";
  }

  /** A comma goes before every entry but the first. */
  function Separator(i: nat): string { if i > 0 then "," else "" }

  lemma {:induction false} ItemsSnoc(xs: seq<Json>, x: Json)
    ensures Items(xs + [x]) == Items(xs) + Separator(|xs|) + Canon(x)
  {
    if xs == [] {
      assert xs + [x] == [x];
    } else {
      assert (xs + [x])[1..] == xs[1..] + [x];
      ItemsSnoc(xs[1..], x);
      if |xs| > 1 { Chain(Canon(xs[0]), Items(xs[1..]), Canon(x)); }
    }
  }

  lemma {:induction false} MembersSnoc(o: Json, ks: seq<string>, k: string)
    requires o.Object? && k in o.fields && forall x | x in ks :: x in o.fields
    ensures Members(o, ks + [k]) == Members(o, ks) + Separator(|ks|) + Member(o, k)
  {
    if ks == [] {
      assert ks + [k] == [k];
    } else {
      assert (ks + [k])[1..] == ks[1..] + [k];
      MembersSnoc(o, ks[1..], k);
      if |ks| > 1 { Chain(Member(o, ks[0]), Members(o, ks[1..]), Member(o, k)); }
    }
  }

  lemma Chain(a: string, m: string, z: string)
    ensures a + "," + (m + "," + z) == (a + "," + m) + "," + z
  {}

  method WriteItems(b: string, items: seq<Json>) returns (out: string)
    ensures out == b + Items(items)
    decreases items, 0
  {
    out := b;
    for i := 0 to |items|
      invariant out == b + Items(items[..i])
    {
      assert items[..i + 1] == items[..i] + [items[i]];
      ItemsSnoc(items[..i], items[i]);
      Append(b, Items(items[..i]), Separator(i));
      Append(b, Items(items[..i]) + Separator(i), Canon(items[i]));
      out := WriteCanonical(out + Separator(i), items[i]);
    }
    assert items[..|items|] == items;
  }

  method WriteMember(b: string, value: Json, key: string) returns (out: string)
    requires value.Object? && key in value.fields
    ensures out == b + Member(value, key)
    decreases value, 0
  {
    out := WriteCanonicalString(b, key);
    Append(b, Quoted(key), ":");
    Append(b, Quoted(key) + ":", Canon(value.fields[key]));
    out := WriteCanonical(out + ":", value.fields[key]);
  }

  method WriteMembers(b: string, value: Json, keys: seq<string>) returns (out: string)
    requires value.Object? && forall k | k in keys :: k in value.fields
    ensures out == b + Members(value, keys)
    decreases value, 1
  {
    out := b;
    for i := 0 to |keys|
      invariant out == b + Members(value, keys[..i])
    {
      assert keys[..i + 1] == keys[..i] + [keys[i]];
      MembersSnoc(value, keys[..i], keys[i]);
      Append(b, Members(value, keys[..i]), Separator(i));
      Append(b, Members(value, keys[..i]) + Separator(i), Member(value, keys[i]));
      out := WriteMember(out + Separator(i), value, keys[i]);
    }
    assert keys[..|keys|] == keys;
  }

  /** Whatever order the map is iterated in, what is appended is the canonical text. */
  method WriteCanonical(b: string, value: Json) returns (out: string)
    ensures out == b + Canon(value)
    decreases value, 2
  {
    match value {
      case Null => out := b + "null";
      case Bool(v) => out := b + (if v then "true" else "false");
      case Number(n) => out := b + Decimal(n);
      case Text(s) => out := WriteCanonicalString(b, s);
      case Array(items) =>
        out := WriteItems(b + "[", items);
        Append(b, "[", Items(items));
        Append(b, "[" + Items(items), "]");
        out := out + "]";
      case Object(fields) =>
        var keys := CollectKeys(fields);
        keys := SortStrings(keys);
        SortedUnique(keys, SortedKeys(fields.Keys));
        out := WriteMembers(b + "{", value, keys);
        Append(b, "{", Members(value, keys));
        Append(b, "{" + Members(value, keys), "}");
        out := out + "}";
    }
  }

  /** Ranging over a map visits each key once, in no particular order. */
  method CollectKeys(fields: map<string, Json>) returns (keys: seq<string>)
    ensures Elements(keys) == fields.Keys
    ensures forall i, j | 0 <= i < j < |keys| :: keys[i] != keys[j]
  {
    keys := [];
    var rest := fields.Keys;
    while rest != {}
      invariant Elements(keys) + rest == fields.Keys && Elements(keys) !! rest
      invariant forall i, j | 0 <= i < j < |keys| :: keys[i] != keys[j]
      decreases rest
    {
      var k :| k in rest;
      assert forall i | 0 <= i < |keys| :: keys[i] in Elements(keys);
      rest := rest - {k};
      keys := keys + [k];
    }
  }

  // ---- Digests ----

  /** The text that is hashed: a domain line, then the document without the excluded keys. */
  ghost function DigestText(domain: string, document: map<string, Json>, excluded: set<string>): string {
    domain + "\n" + Canon(Object(document - excluded))
  }

  method DocumentDigest(domain: string, document: map<string, Json>, excluded: seq<string>, sha256: string -> string)
    returns (digest: string)
    ensures digest == "sha256:" + sha256(DigestText(domain, document, Elements(excluded)))
  {
    var copy := document;
    for i := 0 to |excluded|
      invariant copy == document - Elements(excluded[..i])
    {
      assert excluded[..i + 1] == excluded[..i] + [excluded[i]];
      copy := copy - {excluded[i]};
    }
    assert excluded[..|excluded|] == excluded;
    var text := WriteCanonical(domain + "\n", Object(copy));
    digest := "sha256:" + sha256(text);
  }

  /** What is hashed: the domain on a line of its own, then a text that reads as the document without the
      excluded keys. */
  lemma DigestTextReads(domain: string, document: map<string, Json>, excluded: set<string>) returns (text: string)
    ensures DigestText(domain, document, excluded) == domain + "\n" + text
    ensures ReadValue(text) == Some((Object(document - excluded), ""))
  {
    text := Canon(Object(document - excluded));
    ReadsBack(Object(document - excluded), "");
    assert text + "" == text;
  }

  /** The hashed text is a function of the kept keys only, and it determines them: documents hash
      the same text exactly when they agree outside the excluded keys. */
  lemma DigestTextDetermines(domain: string, a: map<string, Json>, b: map<string, Json>, excluded: set<string>)
    ensures DigestText(domain, a, excluded) == DigestText(domain, b, excluded) <==> a - excluded == b - excluded
  {
    var x, y := Canon(Object(a - excluded)), Canon(Object(b - excluded));
    if domain + "\n" + x == domain + "\n" + y {
      Unprefix(domain + "\n", x);
      Unprefix(domain + "\n", y);
      CanonInjective(Object(a - excluded), Object(b - excluded));
    }
  }

  /** Writing the digest into the document it was computed for leaves the hashed text alone. */
  lemma ExcludedKeyIsFree(domain: string, document: map<string, Json>, excluded: set<string>, k: string, v: Json)
    requires k in excluded
    ensures DigestText(domain, document[k := v], excluded) == DigestText(domain, document, excluded)
    ensures DigestText(domain, document - {k}, excluded) == DigestText(domain, document, excluded)
  {
    assert document[k := v] - excluded == document - excluded;
    assert (document - {k}) - excluded == document - excluded;
  }

  /** Domain lines keep the kinds of document apart. */
  lemma DomainsSeparate(
      d: string, e: string, a: map<string, Json>, b: map<string, Json>, x: set<string>, y: set<string>)
    requires '\n' !in d && '\n' !in e
    ensures DigestText(d, a, x) == DigestText(e, b, y) ==> d == e && a - x == b - y
  {
    if DigestText(d, a, x) == DigestText(e, b, y) {
      FirstLine(d, Canon(Object(a - x)), e, Canon(Object(b - y)));
      CanonInjective(Object(a - x), Object(b - y));
    }
  }

  lemma FirstLine(d: string, s: string, e: string, t: string)
    requires '\n' !in d && '\n' !in e && d + "\n" + s == e + "\n" + t
    ensures d == e && s == t
  {
    var x, y := d + "\n" + s, e + "\n" + t;
    assert x[|d|] == '\n' && y[|e|] == '\n';
    assert |d| == |e|;
    assert d == x[..|d|] && e == y[..|e|];
    assert s == x[|d| + 1..] && t == y[|e| + 1..];
  }
}
