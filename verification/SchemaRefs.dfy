/** JSON Pointer evaluation as resolveJSONPointer performs it, against RFC 6901. */
module JsonPointer {
  import opened Documents
  import opened Decimals
  import opened Optional

  // ---- Tokens ----

  /** strings.ReplaceAll for the two-character pattern "~" + digit. */
  function Replace(s: string, digit: char, into: char): string {
    if |s| < 2 then s
    else if s[0] == '~' && s[1] == digit then [into] + Replace(s[2..], digit, into)
    else [s[0]] + Replace(s[1..], digit, into)
  }

  /** The two replacements the code makes, in its order. */
  function Unescape(s: string): string { Replace(Replace(s, '1', '/'), '0', '~') }

  /** Section 4 of RFC 6901, both escapes read in one pass from the left. */
  function Decode(s: string): string {
    if |s| < 2 then s
    else if s[0] == '~' && s[1] == '1' then "/" + Decode(s[2..])
    else if s[0] == '~' && s[1] == '0' then "~" + Decode(s[2..])
    else [s[0]] + Decode(s[1..])
  }

  /** Section 3 of RFC 6901. */
  function Encode(t: string): string {
    if t == [] then []
    else (if t[0] == '~' then "~0" else if t[0] == '/' then "~1" else [t[0]]) + Encode(t[1..])
  }

  /** The two escapes, spelled out. */
  lemma EscapesSpelled(c: char, s: string)
    ensures Decode("~1" + s) == "/" + Decode(s) && Decode("~0" + s) == "~" + Decode(s)
    ensures c != '~' ==> Decode([c] + s) == [c] + Decode(s)
    ensures Encode("/" + s) == "~1" + Encode(s) && Encode("~" + s) == "~0" + Encode(s)
    ensures c != '~' && c != '/' ==> Encode([c] + s) == [c] + Encode(s)
  {
    assert ("~1" + s)[2..] == s && ("~0" + s)[2..] == s && ([c] + s)[1..] == s;
    assert ("/" + s)[1..] == s && ("~" + s)[1..] == s;
    if s == [] { assert [c] + s == [c] && Decode([c]) == [c]; }
  }

  /** Replacing "~1" first and "~0" second is the same as decoding in one pass, on every string. */
  lemma {:induction false} UnescapeIsDecode(s: string)
    ensures Unescape(s) == Decode(s)
  {
    if |s| >= 2 {
      if s[0] == '~' && s[1] == '1' {
        UnescapeIsDecode(s[2..]);
        var m := Replace(s[2..], '1', '/');
        assert (['/'] + m)[1..] == m;
        assert Replace(['/'] + m, '0', '~') == ['/'] + Replace(m, '0', '~') by {
          if m == [] { assert ['/'] + m == ['/']; }
        }
      } else if s[0] == '~' && s[1] == '0' {
        UnescapeIsDecode(s[2..]);
        var m := Replace(s[2..], '1', '/');
        KeepsHead(s[1..], '1', '/');
        assert s[1..][1..] == s[2..];
        assert Replace(s, '1', '/') == ['~', '0'] + m;
        assert (['~', '0'] + m)[2..] == m;
      } else {
        UnescapeIsDecode(s[1..]);
        var m := Replace(s[1..], '1', '/');
        assert m != [] && (s[0] == '~' ==> m[0] != '0') by { HeadAfter(s[1..]); }
        assert ([s[0]] + m)[1..] == m;
      }
    }
  }

  lemma KeepsHead(s: string, digit: char, into: char)
    requires s != [] && s[0] != '~'
    ensures Replace(s, digit, into) == [s[0]] + Replace(s[1..], digit, into)
  {
    if |s| == 1 { assert s == [s[0]] && s[1..] == []; }
  }

  lemma HeadAfter(s: string)
    requires s != []
    ensures Replace(s, '1', '/') != []
    ensures Replace(s, '1', '/')[0] == '0' ==> s[0] == '0'
  {}

  /** Decoding undoes escaping for every token. */
  lemma {:induction false} DecodeEncode(t: string)
    ensures Decode(Encode(t)) == t
  {
    if t != [] {
      DecodeEncode(t[1..]);
      var rest := Encode(t[1..]);
      if t[0] == '~' {
        assert Encode(t)[2..] == rest;
      } else if t[0] == '/' {
        assert Encode(t)[2..] == rest;
      } else {
        assert Encode(t) == [t[0]] + rest;
        if rest == [] {
          assert t[1..] == [];
          assert Encode(t) == [t[0]];
        } else {
          assert Encode(t)[1..] == rest;
        }
      }
      assert t == [t[0]] + t[1..];
    }
  }

  lemma {:induction false} EncodeHasNoSlash(t: string)
    ensures '/' !in Encode(t)
  {
    if t != [] { EncodeHasNoSlash(t[1..]); }
  }

  // ---- Splitting ----

  /** strings.Split(s, "/"). */
  function Split(s: string): (parts: seq<string>)
    ensures parts != []
  {
    if s == [] then [""]
    else
      var rest := Split(s[1..]);
      if s[0] == '/' then [""] + rest else [[s[0]] + rest[0]] + rest[1..]
  }

  /** "/"-joined text. */
  function Join(parts: seq<string>): string
    requires parts != []
  {
    if |parts| == 1 then parts[0] else parts[0] + "/" + Join(parts[1..])
  }

  lemma {:induction false} SplitPart(p: string, rest: string)
    requires '/' !in p
    ensures Split(p) == [p]
    ensures Split(p + "/" + rest) == [p] + Split(rest)
  {
    var s := p + "/" + rest;
    if p == [] {
      assert s[1..] == rest;
    } else {
      assert s[1..] == p[1..] + "/" + rest;
      SplitPart(p[1..], rest);
      assert p == [p[0]] + p[1..];
      assert Split(s) == [p] + Split(rest);
    }
  }

  lemma {:induction false} SplitJoin(parts: seq<string>)
    requires parts != [] && forall p | p in parts :: '/' !in p
    ensures Split(Join(parts)) == parts
  {
    if |parts| == 1 {
      SplitPart(parts[0], "");
    } else {
      SplitPart(parts[0], Join(parts[1..]));
      SplitJoin(parts[1..]);
      assert parts == [parts[0]] + parts[1..];
    }
  }

  // ---- Array indices ----

  /** strconv.Atoi: an optional sign, then at least one digit. Beyond the range of an int it fails, where no
      array has such an index. */
  function Atoi(s: string): Option<int> {
    if s == [] then None
    else
      var digits := if s[0] == '+' || s[0] == '-' then s[1..] else s;
      if digits == [] || !AllDigits(digits) then None
      else
        var n: int := Value(digits);
        Some(if s[0] == '-' then -n else n)
  }

  lemma AtoiDecimal(n: nat)
    ensures Atoi(Decimal(n)) == Some(n)
  {
    ValueOfDigits(n);
    assert IsDigit(Digits(n)[0]);
  }

  /** An array index of section 4 of RFC 6901 is a numeral. For every token: a numeral is read by Atoi as the
      number it denotes; and a token that Atoi reads as the index n is a numeral exactly when it is n's. */
  lemma AtoiExactly(t: string)
    ensures Numeral(t) ==> Atoi(t) == Some(Value(t))
    ensures Atoi(t).Some? && Atoi(t).value >= 0 ==> (Numeral(t) <==> t == Digits(Atoi(t).value))
    ensures Atoi(t).Some? && Atoi(t).value < 0 ==> !Numeral(t)
  {
    if t != [] && AllDigits(t) { assert IsDigit(t[0]); }
    if Numeral(t) { NumeralUnique(t); }
    if Atoi(t).Some? && Atoi(t).value >= 0 { NumeralShape(Atoi(t).value); }
  }

  /** The other tokens that Atoi reads as an index: a plus sign, leading zeros, or a minus sign before zero. */
  lemma AtoiIsLenient(n: nat)
    ensures Atoi("+" + Digits(n)) == Some(n) && !Numeral("+" + Digits(n))
    ensures Atoi("0" + Digits(n)) == Some(n) && !Numeral("0" + Digits(n))
    ensures Atoi("-" + Digits(n)).Some? && Atoi("-" + Digits(n)).value == 0 - n && !Numeral("-" + Digits(n))
  {
    ValueOfDigits(n);
    LeadingZero(Digits(n));
    assert ("+" + Digits(n))[1..] == Digits(n);
    assert ("-" + Digits(n))[1..] == Digits(n);
    assert !IsDigit(("+" + Digits(n))[0]) && !IsDigit(("-" + Digits(n))[0]);
    assert |"0" + Digits(n)| > 1;
  }

  lemma {:induction false} LeadingZero(d: string)
    requires AllDigits(d)
    ensures AllDigits("0" + d) && Value("0" + d) == Value(d)
  {
    var z := "0" + d;
    assert forall i | 0 <= i < |z| :: z[i] == if i == 0 then '0' else d[i - 1];
    if d != [] {
      assert z[..|z| - 1] == "0" + d[..|d| - 1];
      LeadingZero(d[..|d| - 1]);
    } else {
      assert z == "0" && z[..0] == [];
    }
  }

  // ---- Resolution ----

  /** One descent, as the switch of the loop makes it. */
  function Child(v: Json, part: string): Option<Json> {
    match v
    case Object(fields) => if part in fields then Some(fields[part]) else None
    case Array(items) =>
      var index := Atoi(part);
      if index.Some? && 0 <= index.value < |items| then Some(items[index.value]) else None
    case _ => None
  }

  function Walk(v: Json, parts: seq<string>): Option<Json> {
    if parts == [] then Some(v)
    else
      var next := Child(v, Unescape(parts[0]));
      if next.None? then None else Walk(next.value, parts[1..])
  }

  function Resolve(document: Json, fragment: string): Option<Json> {
    if fragment == "" || fragment == "#" then Some(document)
    else if !("#/" <= fragment) then None
    else Walk(document, Split(fragment[2..]))
  }

  /** A fragment resolves to the whole document if it is empty or "#", and to nothing if it is neither and
      does not start with "#/". */
  lemma FragmentMeaning(document: Json, fragment: string)
    ensures Resolve(document, "") == Some(document) == Resolve(document, "#")
    ensures fragment != "" && fragment != "#" && (|fragment| < 2 || fragment[..2] != "#/") ==>
      Resolve(document, fragment).None?
  {}

  /** One token leads to a child. */
  lemma TokenMeaning(document: Json, part: string)
    requires '/' !in part
    ensures Resolve(document, "#/" + part) == Child(document, Decode(part))
  {
    UnescapeIsDecode(part);
    SplitPart(part, "");
    assert ("#/" + part)[2..] == part;
    OneStep(document, part);
  }

  lemma OneStep(document: Json, part: string)
    ensures Walk(document, [part]) == Child(document, Unescape(part))
  {
    var next := Child(document, Unescape(part));
    assert [part][1..] == [];
    if next.Some? { assert Walk(next.value, []) == next; }
  }

  lemma FirstStep(document: Json, part: string, tail: seq<string>)
    ensures var next := Child(document, Unescape(part));
      Walk(document, [part] + tail) == if next.None? then None else Walk(next.value, tail)
  {
    assert ([part] + tail)[1..] == tail;
  }

  lemma AfterHash(part: string, rest: string)
    ensures "#/" <= "#/" + part + "/" + rest && ("#/" + part + "/" + rest)[2..] == part + "/" + rest
    ensures "#/" <= "#/" + rest && ("#/" + rest)[2..] == rest
  {}

  /** And further tokens lead on from there. */
  lemma PathMeaning(document: Json, part: string, rest: string)
    requires '/' !in part
    ensures var next := Child(document, Decode(part));
      Resolve(document, "#/" + part + "/" + rest) == if next.None? then None else Resolve(next.value, "#/" + rest)
  {
    UnescapeIsDecode(part);
    SplitPart(part, rest);
    AfterHash(part, rest);
    FirstStep(document, part, Split(rest));
  }

  /** What one token selects: a member by name, an item by the number that Atoi reads, nothing in a scalar. */
  lemma ChildMeaning(v: Json, part: string)
    ensures v.Object? ==> Child(v, part) == if part in v.fields then Some(v.fields[part]) else None
    ensures v.Array? ==> forall i: nat | i < |v.items| ::
      Atoi(part).Some? && Atoi(part).value == i ==> Child(v, part) == Some(v.items[i])
    ensures v.Array? && (Atoi(part).None? || Atoi(part).value < 0 || Atoi(part).value >= |v.items|) ==>
      Child(v, part).None?
    ensures !v.Object? && !v.Array? ==> Child(v, part).None?
  {}

  method ResolveJSONPointer(document: Json, fragment: string) returns (r: Option<Json>)
    ensures r == Resolve(document, fragment)
  {
    if fragment == "" || fragment == "#" { return Some(document); }
    if !("#/" <= fragment) { return None; }
    r := WalkParts(document, Split(fragment[2..]));
  }

  method WalkParts(document: Json, parts: seq<string>) returns (r: Option<Json>)
    ensures r == Walk(document, parts)
  {
    var current := document;
    for i := 0 to |parts|
      invariant Walk(document, parts) == Walk(current, parts[i..])
    {
      assert parts[i..][1..] == parts[i + 1..];
      var next := Child(current, Unescape(parts[i]));
      if next.None? { return None; }
      current := next.value;
    }
    return Some(current);
  }

  // ---- Every location has a pointer that reaches it ----

  datatype Place = Key(key: string) | Index(index: nat)

  function At(v: Json, path: seq<Place>): Option<Json> {
    if path == [] then Some(v)
    else match (v, path[0])
      case (Object(fields), Key(k)) => if k in fields then At(fields[k], path[1..]) else None
      case (Array(items), Index(i)) => if i < |items| then At(items[i], path[1..]) else None
      case _ => None
  }

  function Token(p: Place): string {
    match p
    case Key(k) => k
    case Index(i) => Decimal(i)
  }

  function Tokens(path: seq<Place>): (r: seq<string>)
    ensures |r| == |path|
    ensures forall i | 0 <= i < |r| :: r[i] == Encode(Token(path[i]))
  {
    seq(|path|, i requires 0 <= i < |path| => Encode(Token(path[i])))
  }

  /** Section 6 of RFC 6901: the pointer as a URI fragment. */
  function Pointer(path: seq<Place>): string {
    if path == [] then "#" else "#/" + Join(Tokens(path))
  }

  /** Some step of the path is read as the other kind: a key that Atoi reads as an index into an array,
      or an index that is written like a key of an object. */
  predicate Misread(v: Json, path: seq<Place>)
    decreases v, path, 0
  {
    path != [] &&
    match (v, path[0])
    case (Object(fields), Key(k)) => k in fields && Misread(fields[k], path[1..])
    case (Array(items), Index(i)) => i < |items| && Misread(items[i], path[1..])
    case (Object(fields), Index(i)) => Decimal(i) in fields && Reads(fields[Decimal(i)], path[1..])
    case (Array(items), Key(k)) =>
      Atoi(k).Some? && 0 <= Atoi(k).value < |items| && Reads(items[Atoi(k).value], path[1..])
    case _ => false
  }

  predicate Reads(v: Json, path: seq<Place>)
    decreases v, path, 1
  {
    At(v, path).Some? || Misread(v, path)
  }

  lemma {:induction false} WalkReaches(v: Json, path: seq<Place>)
    ensures At(v, path).Some? ==> Walk(v, Tokens(path)) == At(v, path)
    ensures Walk(v, Tokens(path)).Some? <==> Reads(v, path)
    decreases |path|
  {
    if path != [] {
      var t := Token(path[0]);
      UnescapeIsDecode(Encode(t));
      DecodeEncode(t);
      assert Tokens(path)[1..] == Tokens(path[1..]);
      if path[0].Index? { AtoiDecimal(path[0].index); }
      var next := Child(v, t);
      if next.Some? { WalkReaches(next.value, path[1..]); }
    }
  }

  /** A pointer written for a path reaches what is there, and resolves to something else, where nothing
      is, exactly when a step of it can be misread. */
  lemma PointerReaches(document: Json, path: seq<Place>)
    ensures At(document, path).Some? ==> Resolve(document, Pointer(path)) == At(document, path)
    ensures At(document, path).None? ==> (Resolve(document, Pointer(path)).Some? <==> Misread(document, path))
  {
    if path != [] {
      var parts := Tokens(path);
      forall p | p in parts ensures '/' !in p {
        var i :| 0 <= i < |parts| && parts[i] == p;
        EncodeHasNoSlash(Token(path[i]));
      }
      SplitJoin(parts);
      assert Pointer(path)[2..] == Join(parts);
      WalkReaches(document, path);
    }
  }
}

/** validateRecursiveRefs over a finite, possibly cyclic set of documents. */
module SchemaRefs {
  import opened Optional
  import opened Documents
  import opened JsonPointer
  import opened KeyOrder
  import CanonicalJson

  /** Loaded documents, with filepath.Clean(filepath.Join(filepath.Dir(from), name)). */
  datatype Sources = Sources(docs: map<string, Json>, join: (string, string) -> string)

  datatype Address = Address(path: string, fragment: string) {
    /** The key under which a visited reference is remembered. */
    function Name(): string { path + fragment }
  }

  /** strings.Cut(ref, "#"): the part before the first '#'. */
  function Before(ref: string): (r: string)
    ensures |r| <= |ref| && r == ref[..|r|] && '#' !in r
    ensures |r| < |ref| <==> '#' in ref
    ensures |r| < |ref| ==> ref[|r|] == '#'
  {
    if ref == [] || ref[0] == '#' then [] else [ref[0]] + Before(ref[1..])
  }

  function Target(s: Sources, from: string, ref: string): (a: Address)
    ensures a.fragment == "" || a.fragment[0] == '#'
  {
    var before := Before(ref);
    if '#' in ref then
      Address(if before != "" then s.join(from, before) else from, ref[|before|..])
    else if ref != "" then Address(s.join(from, ref), "")
    else Address(from, "")
  }

  lemma {:induction false} BeforeHash(b: string, f: string)
    requires '#' !in b && (f == "" || f[0] == '#')
    ensures Before(b + f) == b && (b + f)[|b|..] == f
  {
    if b == [] {
      assert b + f == f;
    } else {
      assert (b + f)[1..] == b[1..] + f && (b + f)[0] == b[0];
      BeforeHash(b[1..], f);
      assert b == [b[0]] + b[1..];
    }
  }

  /** Where a reference leads: its file part, if it has one, is joined to the referring document's path, and
      its fragment, from the first '#' on, is looked up there. */
  lemma TargetOf(s: Sources, from: string, b: string, f: string)
    requires '#' !in b && (f == "" || f[0] == '#')
    ensures Target(s, from, b + f) == Address(if b == "" then from else s.join(from, b), f)
  {
    BeforeHash(b, f);
    if f != "" {
      assert (b + f)[|b|] == '#';
    } else {
      assert b + f == b;
    }
  }

  predicate Found(s: Sources, a: Address) {
    a.path in s.docs && Resolve(s.docs[a.path], a.fragment).Some?
  }

  predicate Resolves(s: Sources, from: string, ref: string) { Found(s, Target(s, from, ref)) }

  /** Every string-valued "$ref" inside a value. */
  ghost function Refs(v: Json): set<string> {
    match v
    case Object(fields) =>
      (if "$ref" in fields && fields["$ref"].Text? then {fields["$ref"].s} else {})
      + (set k, r | k in fields && r in Refs(fields[k]) :: r)
    case Array(items) => set i, r | 0 <= i < |items| && r in Refs(items[i]) :: r
    case _ => {}
  }

  /** The references of a value are the strings at the end of some path to a "$ref". */
  lemma {:induction false} RefsAreThere(v: Json, path: seq<Place>, r: string)
    requires At(v, path + [Key("$ref")]) == Some(Text(r))
    ensures r in Refs(v)
    decreases |path|
  {
    var whole := path + [Key("$ref")];
    if path != [] {
      assert whole[0] == path[0] && whole[1..] == path[1..] + [Key("$ref")];
      match path[0] {
        case Key(k) =>
          RefsAreThere(v.fields[k], path[1..], r);
        case Index(i) =>
          RefsAreThere(v.items[i], path[1..], r);
          assert v.items[i] in v.items;
      }
    } else {
      assert whole == [Key("$ref")] && whole[1..] == [];
    }
  }

  lemma {:induction false} RefsHavePaths(v: Json, r: string) returns (path: seq<Place>)
    requires r in Refs(v)
    ensures At(v, path + [Key("$ref")]) == Some(Text(r))
    decreases v
  {
    match v {
      case Object(fields) =>
        if "$ref" in fields && fields["$ref"] == Text(r) {
          path := [];
          assert path + [Key("$ref")] == [Key("$ref")] && [Key("$ref")][1..] == [];
          assert At(fields["$ref"], []) == Some(Text(r));
        } else {
          var k :| k in fields && r in Refs(fields[k]);
          var rest := RefsHavePaths(fields[k], r);
          path := [Key(k)] + rest;
          Onward(path, rest);
        }
      case Array(items) =>
        var i: nat :| i < |items| && r in Refs(items[i]);
        var rest := RefsHavePaths(items[i], r);
        path := [Index(i)] + rest;
        Onward(path, rest);
      case _ =>
    }
  }

  lemma Onward(path: seq<Place>, rest: seq<Place>)
    requires path != [] && path[1..] == rest
    ensures (path + [Key("$ref")])[0] == path[0] && (path + [Key("$ref")])[1..] == rest + [Key("$ref")]
  {}

  lemma ChildRefs(v: Json, part: string)
    requires Child(v, part).Some?
    ensures Refs(Child(v, part).value) <= Refs(v)
  {}

  lemma {:induction false} WalkRefs(v: Json, parts: seq<string>)
    requires Walk(v, parts).Some?
    ensures Refs(Walk(v, parts).value) <= Refs(v)
  {
    if parts != [] {
      ChildRefs(v, Unescape(parts[0]));
      WalkRefs(Child(v, Unescape(parts[0])).value, parts[1..]);
    }
  }

  lemma ResolveRefs(document: Json, fragment: string)
    requires Resolve(document, fragment).Some?
    ensures Refs(Resolve(document, fragment).value) <= Refs(document)
  {
    if fragment != "" && fragment != "#" { WalkRefs(document, Split(fragment[2..])); }
  }

  /** The references of one value, as remembered names. */
  ghost function Names(s: Sources, from: string, v: Json): set<string> {
    set r | r in Refs(v) :: Target(s, from, r).Name()
  }

  /** All names a walk from a value can ever remember: this is why cycles end. */
  ghost function Universe(s: Sources, from: string, v: Json): set<string> {
    Names(s, from, v) + set p, n | p in s.docs && n in Names(s, p, s.docs[p]) :: n
  }

  lemma UniverseShrinks(s: Sources, from: string, v: Json, to: string, w: Json)
    requires (to == from && Refs(w) <= Refs(v)) || (to in s.docs && Refs(w) <= Refs(s.docs[to]))
    ensures Universe(s, to, w) <= Universe(s, from, v)
  {
    forall n | n in Names(s, to, w) ensures n in Universe(s, from, v) {
      var r :| r in Refs(w) && n == Target(s, to, r).Name();
      if to != from || !(Refs(w) <= Refs(v)) { assert n in Names(s, to, s.docs[to]); }
    }
  }

  lemma Shrinks(big: set<string>, small: set<string>, seen: set<string>, seen': set<string>)
    requires small <= big && seen <= seen'
    ensures |small - seen'| <= |big - seen|
    ensures forall n | n in big && n !in seen && n in seen' :: |small - seen'| < |big - seen|
  {
    Subset(small - seen', big - seen);
    forall n | n in big && n !in seen && n in seen' ensures |small - seen'| < |big - seen| {
      Subset(small - seen', big - seen - {n});
    }
  }

  lemma {:induction false} Subset<T>(a: set<T>, b: set<T>)
    requires a <= b
    ensures |a| <= |b|
  {
    if a != {} {
      var x :| x in a;
      Subset(a - {x}, b - {x});
    }
  }

  /** A reference is met from a value after following n other references. */
  ghost predicate Meets(s: Sources, n: nat, from: string, v: Json, at: string, ref: string) {
    if n == 0 then at == from && ref in Refs(v)
    else exists r | r in Refs(v) && Resolves(s, from, r) ::
      var a := Target(s, from, r);
      Meets(s, n - 1, a.path, Resolve(s.docs[a.path], a.fragment).value, at, ref)
  }

  /** Every reference of a value leads to a loaded document and is remembered. */
  ghost predicate Covers(s: Sources, from: string, v: Json, seen: set<string>) {
    forall r | r in Refs(v) :: Target(s, from, r).path in s.docs && Target(s, from, r).Name() in seen
  }

  /** An address that resolves, to a value whose references are all covered. */
  ghost predicate Closed(s: Sources, a: Address, seen: set<string>) {
    && Found(s, a) && (a.fragment == "" || a.fragment[0] == '#')
    && Covers(s, a.path, Resolve(s.docs[a.path], a.fragment).value, seen)
  }

  ghost predicate Explored(s: Sources, name: string, seen: set<string>) {
    exists a: Address :: a.Name() == name && Referenced(s, a) && Closed(s, a, seen)
  }

  ghost predicate AllExplored(s: Sources, names: set<string>, seen: set<string>) {
    forall n | n in names :: Explored(s, n, seen)
  }

  /** Some reference met on the way does not resolve. */
  ghost predicate Dangles(s: Sources, from: string, v: Json) {
    exists n: nat, at, ref :: Meets(s, n, from, v, at, ref) && !Resolves(s, at, ref)
  }

  /** The value is part of a loaded document. */
  ghost predicate Part(s: Sources, from: string, v: Json) { from in s.docs && Refs(v) <= Refs(s.docs[from]) }

  /** Some document refers to this address, in a loaded document. */
  ghost predicate Referenced(s: Sources, a: Address) {
    a.path in s.docs && exists p, r :: p in s.docs && r in Refs(s.docs[p]) && Target(s, p, r) == a
  }

  /** A remembered name stands for one address. */
  ghost predicate NamesApart(s: Sources) {
    forall a, b | Referenced(s, a) && Referenced(s, b) && a.Name() == b.Name() :: a == b
  }

  /** Weaker: an address that does not resolve shares its name with none that does. */
  ghost predicate DanglingApart(s: Sources) {
    forall a, b | Referenced(s, a) && Referenced(s, b) && a.Name() == b.Name() :: Found(s, a) ==> Found(s, b)
  }

  ghost predicate AllResolve(s: Sources) {
    forall p, r | p in s.docs && r in Refs(s.docs[p]) :: Resolves(s, p, r)
  }

  const CONTRACTS := "packages/contracts/"

  /** The documents that loadSources reads. */
  const LOADED: set<string> := {
    CONTRACTS + "nodes.openapi.json",
    CONTRACTS + "openapi.json",
    CONTRACTS + "nodes/node-install-plan.schema.json",
    CONTRACTS + "nodes/node-install-receipt.schema.json",
    CONTRACTS + "nodes/node-operation-receipt.schema.json"}

  predicate PlainPaths(s: Sources) { forall p | p in s.docs :: '#' !in p }

  lemma LoadedPathsArePlain(s: Sources)
    requires s.docs.Keys <= LOADED
    ensures PlainPaths(s)
  {
    assert '#' !in CONTRACTS;
    assert '#' !in "nodes.openapi.json" && '#' !in "openapi.json";
    assert '#' !in "nodes/node-install-plan.schema.json";
    assert '#' !in "nodes/node-install-receipt.schema.json";
    assert '#' !in "nodes/node-operation-receipt.schema.json";
    assert forall p | p in LOADED :: '#' !in p;
  }

  lemma PlainPathsTellApart(s: Sources)
    requires PlainPaths(s)
    ensures NamesApart(s) && DanglingApart(s)
  {
    forall a, b | Referenced(s, a) && Referenced(s, b) && a.Name() == b.Name() ensures a == b {
      SameName(a, b);
    }
  }

  lemma {:induction false} MeetsFromPart(s: Sources, n: nat, from: string, w: Json, v: Json, at: string, ref: string)
    requires Refs(w) <= Refs(v) && Meets(s, n, from, w, at, ref)
    ensures Meets(s, n, from, v, at, ref)
  {}

  lemma DanglesInPart(s: Sources, from: string, w: Json, v: Json)
    requires Refs(w) <= Refs(v) && Dangles(s, from, w)
    ensures Dangles(s, from, v)
  {
    var n: nat, at, ref :| Meets(s, n, from, w, at, ref) && !Resolves(s, at, ref);
    MeetsFromPart(s, n, from, w, v, at, ref);
  }

  lemma DanglesBehind(s: Sources, from: string, v: Json, r: string)
    requires r in Refs(v) && Resolves(s, from, r)
    requires var a := Target(s, from, r); Dangles(s, a.path, Resolve(s.docs[a.path], a.fragment).value)
    ensures Dangles(s, from, v)
  {
    var a := Target(s, from, r);
    var w := Resolve(s.docs[a.path], a.fragment).value;
    var n: nat, at, ref :| Meets(s, n, a.path, w, at, ref) && !Resolves(s, at, ref);
    assert Meets(s, n + 1, from, v, at, ref);
  }

  lemma ExploredJoins(s: Sources, seen: set<string>, mid: set<string>, seen': set<string>)
    requires seen <= mid <= seen'
    requires AllExplored(s, mid - seen, mid) && AllExplored(s, seen' - mid, seen')
    ensures AllExplored(s, seen' - seen, seen')
  {
    forall n | n in seen' - seen ensures Explored(s, n, seen') {
      if n in mid {
        assert n in mid - seen;
        assert Explored(s, n, mid);
        var a: Address :| a.Name() == n && Referenced(s, a) && Closed(s, a, mid);
        assert Closed(s, a, seen');
      }
    }
  }

  /** The children walked so far are covered. */
  ghost predicate FieldsCovered(s: Sources, from: string, v: Json, keys: set<string>, seen: set<string>)
    requires v.Object?
  {
    forall k | k in keys && k in v.fields :: Covers(s, from, v.fields[k], seen)
  }

  ghost predicate ItemsCovered(s: Sources, from: string, v: Json, n: nat, seen: set<string>)
    requires v.Array?
  {
    forall i | 0 <= i < n && i < |v.items| :: Covers(s, from, v.items[i], seen)
  }

  lemma FieldCovered(
      s: Sources, from: string, v: Json, keys: set<string>, k: string, seen: set<string>, seen': set<string>)
    requires v.Object? && k in v.fields && seen <= seen'
    requires FieldsCovered(s, from, v, keys, seen) && Covers(s, from, v.fields[k], seen')
    ensures FieldsCovered(s, from, v, keys + {k}, seen')
  {
    forall x | x in keys && x in v.fields ensures Covers(s, from, v.fields[x], seen') {
      assert Covers(s, from, v.fields[x], seen);
    }
  }

  lemma ItemCovered(s: Sources, from: string, v: Json, n: nat, seen: set<string>, seen': set<string>)
    requires v.Array? && n < |v.items| && seen <= seen'
    requires ItemsCovered(s, from, v, n, seen) && Covers(s, from, v.items[n], seen')
    ensures ItemsCovered(s, from, v, n + 1, seen')
  {
    forall i | 0 <= i < n ensures Covers(s, from, v.items[i], seen') {
      assert Covers(s, from, v.items[i], seen);
    }
  }

  lemma CoversObject(s: Sources, from: string, v: Json, seen: set<string>)
    requires v.Object? && FieldsCovered(s, from, v, v.fields.Keys, seen)
    requires "$ref" in v.fields && v.fields["$ref"].Text? ==>
      var a := Target(s, from, v.fields["$ref"].s); a.path in s.docs && a.Name() in seen
    ensures Covers(s, from, v, seen)
  {
    forall r | r in Refs(v) && !("$ref" in v.fields && v.fields["$ref"] == Text(r))
      ensures Target(s, from, r).path in s.docs && Target(s, from, r).Name() in seen
    {
      var k :| k in v.fields && r in Refs(v.fields[k]);
      assert Covers(s, from, v.fields[k], seen);
    }
  }

  lemma CoversArray(s: Sources, from: string, v: Json, seen: set<string>)
    requires v.Array? && ItemsCovered(s, from, v, |v.items|, seen)
    ensures Covers(s, from, v, seen)
  {
    forall r | r in Refs(v) ensures Target(s, from, r).path in s.docs && Target(s, from, r).Name() in seen {
      var i :| 0 <= i < |v.items| && r in Refs(v.items[i]);
      assert Covers(s, from, v.items[i], seen);
    }
  }

  lemma PartRefs(v: Json, k: string)
    requires v.Object? && k in v.fields
    ensures Refs(v.fields[k]) <= Refs(v)
  {}

  /** The recursive walk. It ends on every finite set of documents: a followed reference uses up a
      name of the universe, and otherwise the value gets smaller. */
  method ValidateRecursiveRefs(s: Sources, from: string, value: Json, seen: set<string>)
    returns (ok: bool, seen': set<string>)
    requires Part(s, from, value)
    ensures seen <= seen'
    ensures ok ==> Covers(s, from, value, seen') && AllExplored(s, seen' - seen, seen')
    ensures !ok ==> Dangles(s, from, value)
    decreases |Universe(s, from, value) - seen|, value, 1
  {
    ok, seen' := true, seen;
    match value {
      case Object(fields) =>
        if "$ref" in fields && fields["$ref"].Text? {
          ok, seen' := FollowRef(s, from, value, seen);
          if !ok { return; }
        }
        ghost var before := seen';
        Shrinks(Universe(s, from, value), Universe(s, from, value), seen, seen');
        ok, seen' := WalkFields(s, from, value, seen');
        if ok {
          ExploredJoins(s, seen, before, seen');
          CoversObject(s, from, value, seen');
        }
      case Array(items) =>
        ok, seen' := WalkItems(s, from, value, seen);
        if ok { CoversArray(s, from, value, seen'); }
      case _ =>
    }
  }

  lemma NextChild(s: Sources, from: string, v: Json, w: Json, seen: set<string>, mid: set<string>)
    requires Refs(w) <= Refs(v) && seen <= mid
    ensures |Universe(s, from, w) - mid| <= |Universe(s, from, v) - seen|
  {
    UniverseShrinks(s, from, v, from, w);
    Shrinks(Universe(s, from, v), Universe(s, from, w), seen, mid);
  }

  method WalkFields(s: Sources, from: string, value: Json, seen: set<string>) returns (ok: bool, seen': set<string>)
    requires value.Object? && Part(s, from, value)
    ensures seen <= seen'
    ensures ok ==> AllExplored(s, seen' - seen, seen')
    ensures ok ==> FieldsCovered(s, from, value, value.fields.Keys, seen')
    ensures !ok ==> Dangles(s, from, value)
    decreases |Universe(s, from, value) - seen|, value, 0
  {
    var keys := CanonicalJson.CollectKeys(value.fields);
    seen' := seen;
    for i := 0 to |keys|
      invariant seen <= seen' && AllExplored(s, seen' - seen, seen')
      invariant FieldsCovered(s, from, value, Elements(keys[..i]), seen')
    {
      var k := keys[i];
      NextElement(keys, i);
      PartRefs(value, k);
      ghost var before := seen';
      NextChild(s, from, value, value.fields[k], seen, before);
      ok, seen' := ValidateRecursiveRefs(s, from, value.fields[k], seen');
      if !ok { DanglesInPart(s, from, value.fields[k], value); return; }
      ExploredJoins(s, seen, before, seen');
      FieldCovered(s, from, value, Elements(keys[..i]), k, before, seen');
    }
    assert keys[..|keys|] == keys;
    ok := true;
  }

  lemma NextElement(keys: seq<string>, i: nat)
    requires i < |keys|
    ensures Elements(keys[..i + 1]) == Elements(keys[..i]) + {keys[i]} && keys[i] in Elements(keys)
  {
    assert keys[..i + 1] == keys[..i] + [keys[i]];
  }

  method WalkItems(s: Sources, from: string, value: Json, seen: set<string>) returns (ok: bool, seen': set<string>)
    requires value.Array? && Part(s, from, value)
    ensures seen <= seen'
    ensures ok ==> AllExplored(s, seen' - seen, seen')
    ensures ok ==> ItemsCovered(s, from, value, |value.items|, seen')
    ensures !ok ==> Dangles(s, from, value)
    decreases |Universe(s, from, value) - seen|, value, 0
  {
    seen' := seen;
    for i := 0 to |value.items|
      invariant seen <= seen' && AllExplored(s, seen' - seen, seen')
      invariant ItemsCovered(s, from, value, i, seen')
    {
      assert Refs(value.items[i]) <= Refs(value);
      ghost var before := seen';
      NextChild(s, from, value, value.items[i], seen, before);
      ok, seen' := ValidateRecursiveRefs(s, from, value.items[i], seen');
      if !ok { DanglesInPart(s, from, value.items[i], value); return; }
      ExploredJoins(s, seen, before, seen');
      ItemCovered(s, from, value, i, before, seen');
    }
    ok := true;
  }

  /** The "$ref" branch of the walk. */
  method FollowRef(s: Sources, from: string, value: Json, seen: set<string>) returns (ok: bool, seen': set<string>)
    requires value.Object? && "$ref" in value.fields && value.fields["$ref"].Text? && Part(s, from, value)
    ensures seen <= seen'
    ensures ok ==> var a := Target(s, from, value.fields["$ref"].s); a.path in s.docs && a.Name() in seen'
    ensures ok ==> AllExplored(s, seen' - seen, seen')
    ensures !ok ==> Dangles(s, from, value)
    decreases |Universe(s, from, value) - seen|, value, 0
  {
    var ref := value.fields["$ref"].s;
    var a := Target(s, from, ref);
    seen' := seen;
    assert Meets(s, 0, from, value, from, ref);
    if a.path !in s.docs { return false, seen; }
    var name := a.Name();
    if name !in seen {
      seen' := seen + {name};
      var target := ResolveJSONPointer(s.docs[a.path], a.fragment);
      if target.None? { return false, seen'; }
      ResolveRefs(s.docs[a.path], a.fragment);
      UniverseShrinks(s, from, value, a.path, target.value);
      assert name in Names(s, from, value);
      Shrinks(Universe(s, from, value), Universe(s, a.path, target.value), seen, seen');
      ghost var before := seen';
      ok, seen' := ValidateRecursiveRefs(s, a.path, target.value, seen');
      if !ok { DanglesBehind(s, from, value, ref); return; }
      Remembered(s, from, ref, before, seen');
    }
    ok := true;
  }

  /** A reference whose target was walked is explored. */
  lemma Remembered(s: Sources, from: string, ref: string, mid: set<string>, seen: set<string>)
    requires from in s.docs && ref in Refs(s.docs[from]) && Resolves(s, from, ref)
    requires var a := Target(s, from, ref);
      Covers(s, a.path, Resolve(s.docs[a.path], a.fragment).value, seen)
    requires AllExplored(s, seen - mid, seen)
    ensures AllExplored(s, seen - (mid - {Target(s, from, ref).Name()}), seen)
  {
    var a := Target(s, from, ref);
    assert Referenced(s, a) && Closed(s, a, seen);
    forall n | n in seen - (mid - {a.Name()}) ensures Explored(s, n, seen) {
      if n != a.Name() { assert n in seen - mid; }
    }
  }

  lemma SameName(a: Address, b: Address)
    requires a.Name() == b.Name() && '#' !in a.path && '#' !in b.path
    requires (a.fragment == "" || a.fragment[0] == '#') && (b.fragment == "" || b.fragment[0] == '#')
    ensures a == b
  {
    var x, y := a.Name(), b.Name();
    assert a.fragment != "" ==> x[|a.path|] == '#';
    assert b.fragment != "" ==> y[|b.path|] == '#';
    assert forall i | 0 <= i < |a.path| :: x[i] == a.path[i];
    assert forall i | 0 <= i < |b.path| :: y[i] == b.path[i];
    assert |a.path| == |b.path|;
    assert a.path == x[..|a.path|] && b.path == y[..|b.path|];
    assert a.fragment == x[|a.path|..] && b.fragment == y[|b.path|..];
  }

  /** The first reference on the way to one that is met later. */
  lemma FirstStep(s: Sources, n: nat, from: string, v: Json, at: string, ref: string) returns (r: string)
    requires n > 0 && Meets(s, n, from, v, at, ref)
    ensures r in Refs(v) && Resolves(s, from, r)
    ensures var a := Target(s, from, r);
      Meets(s, n - 1, a.path, Resolve(s.docs[a.path], a.fragment).value, at, ref)
  {
    r :| r in Refs(v) && Resolves(s, from, r) && (var a := Target(s, from, r);
      Meets(s, n - 1, a.path, Resolve(s.docs[a.path], a.fragment).value, at, ref));
  }

  /** With names apart, the target of a covered reference is the address that was explored. */
  lemma TargetClosed(s: Sources, seen: set<string>, from: string, v: Json, r: string)
    requires NamesApart(s) && AllExplored(s, seen, seen) && Covers(s, from, v, seen) && Part(s, from, v)
    requires r in Refs(v)
    ensures var t := Target(s, from, r);
      Closed(s, t, seen) && Part(s, t.path, Resolve(s.docs[t.path], t.fragment).value)
  {
    var t := Target(s, from, r);
    assert Explored(s, t.Name(), seen);
    var a: Address :| a.Name() == t.Name() && Referenced(s, a) && Closed(s, a, seen);
    assert Referenced(s, t);
    ResolveRefs(s.docs[t.path], t.fragment);
  }

  /** A set of remembered names that is explored from nothing covers all that can be met. */
  lemma {:induction false} CoveredResolves(
      s: Sources, seen: set<string>, n: nat, from: string, v: Json, at: string, ref: string)
    requires NamesApart(s) && AllExplored(s, seen, seen) && Covers(s, from, v, seen) && Part(s, from, v)
    requires Meets(s, n, from, v, at, ref)
    ensures Resolves(s, at, ref)
    decreases n
  {
    if n == 0 {
      TargetClosed(s, seen, from, v, ref);
    } else {
      var r := FirstStep(s, n, from, v, at, ref);
      TargetClosed(s, seen, from, v, r);
      var t := Target(s, from, r);
      CoveredResolves(s, seen, n - 1, t.path, Resolve(s.docs[t.path], t.fragment).value, at, ref);
    }
  }

  /** One document, walked with nothing remembered: accepted exactly when every reference that can be
      met from it, through any chain of references, resolves. */
  method ValidateDocument(s: Sources, path: string) returns (ok: bool)
    requires path in s.docs
    ensures !ok ==> Dangles(s, path, s.docs[path])
    ensures NamesApart(s) ==> (ok <==> !Dangles(s, path, s.docs[path]))
    ensures ok && DanglingApart(s) ==> forall r | r in Refs(s.docs[path]) :: Resolves(s, path, r)
  {
    var seen;
    ok, seen := ValidateRecursiveRefs(s, path, s.docs[path], {});
    if ok {
      assert seen - {} == seen;
      if NamesApart(s) {
        forall n: nat, at, ref | Meets(s, n, path, s.docs[path], at, ref) ensures Resolves(s, at, ref) {
          CoveredResolves(s, seen, n, path, s.docs[path], at, ref);
        }
      }
      if DanglingApart(s) {
        forall r | r in Refs(s.docs[path]) ensures Resolves(s, path, r) { CoveredFound(s, seen, path, r); }
      }
    }
  }

  lemma CoveredFound(s: Sources, seen: set<string>, path: string, r: string)
    requires DanglingApart(s) && AllExplored(s, seen, seen)
    requires path in s.docs && Covers(s, path, s.docs[path], seen) && r in Refs(s.docs[path])
    ensures Resolves(s, path, r)
  {
    var t := Target(s, path, r);
    var a: Address :| a.Name() == t.Name() && Referenced(s, a) && Closed(s, a, seen);
    assert Referenced(s, t);
  }

  /** What is met lies in some loaded document. */
  lemma {:induction false} MetInDocument(s: Sources, n: nat, from: string, v: Json, at: string, ref: string)
    requires from in s.docs && Refs(v) <= Refs(s.docs[from])
    requires Meets(s, n, from, v, at, ref)
    ensures at in s.docs && ref in Refs(s.docs[at])
    decreases n
  {
    if n > 0 {
      var r := FirstStep(s, n, from, v, at, ref);
      var a := Target(s, from, r);
      ResolveRefs(s.docs[a.path], a.fragment);
      MetInDocument(s, n - 1, a.path, Resolve(s.docs[a.path], a.fragment).value, at, ref);
    }
  }

  /** The whole set: accepted exactly when every reference in every document resolves. The documents
      that are loaded meet the condition on names. */
  method ValidateSources(s: Sources) returns (ok: bool)
    ensures !ok ==> !AllResolve(s)
    ensures DanglingApart(s) ==> (ok <==> AllResolve(s))
    ensures s.docs.Keys <= LOADED ==> (ok <==> AllResolve(s))
  {
    if s.docs.Keys <= LOADED {
      LoadedPathsArePlain(s);
      PlainPathsTellApart(s);
    }
    var rest := s.docs.Keys;
    while rest != {}
      invariant rest <= s.docs.Keys
      invariant DanglingApart(s) ==> forall p, r | p in s.docs.Keys - rest && r in Refs(s.docs[p]) :: Resolves(s, p, r)
      decreases rest
    {
      var p :| p in rest;
      rest := rest - {p};
      ok := ValidateDocument(s, p);
      if !ok {
        ghost var n: nat, at, ref :| Meets(s, n, p, s.docs[p], at, ref) && !Resolves(s, at, ref);
        MetInDocument(s, n, p, s.docs[p], at, ref);
        return;
      }
    }
    ok := true;
  }
}
