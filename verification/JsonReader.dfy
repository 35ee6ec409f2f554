/** A reader of JSON texts, from sections 3 to 7 of RFC 8259, for texts without insignificant white space,
    fractions and exponents. It knows nothing of the writer. */
module JsonReader {
  import opened Optional
  import opened Documents
  import opened Decimals

  const HEX := "0123456789abcdef"

  /** The value of a hexadecimal digit in either case. */
  function HexValue(c: char): Option<nat> {
    if '0' <= c <= '9' then Some(c as int - '0' as int)
    else if 'a' <= c <= 'f' then Some(c as int - 'a' as int + 10)
    else if 'A' <= c <= 'F' then Some(c as int - 'A' as int + 10)
    else None
  }

  /** The character of a \u escape, unless it is half of a surrogate pair. */
  function ReadHex(s: string): Option<char>
    requires |s| == 4
  {
    var a, b, c, d := HexValue(s[0]), HexValue(s[1]), HexValue(s[2]), HexValue(s[3]);
    if a.None? || b.None? || c.None? || d.None? then None
    else
      var n: nat := ((a.value * 16 + b.value) * 16 + c.value) * 16 + d.value;
      if n < 0xD800 || 0xE000 <= n < 0x10000 then Some(n as char) else None
  }

  /** The two-character escapes of section 7. */
  function ReadShort(c: char): Option<char> {
    match c
    case '"' => Some('"')
    case '\\' => Some('\\')
    case '/' => Some('/')
    case 'b' => Some(8 as char)
    case 'f' => Some(12 as char)
    case 'n' => Some(10 as char)
    case 'r' => Some(13 as char)
    case 't' => Some(9 as char)
    case _ => None
  }

  function Prepend(c: char, r: Option<(string, string)>): Option<(string, string)> {
    if r.None? then None else Some(([c] + r.value.0, r.value.1))
  }

  /** The rest of a string behind its opening quotation mark, and what follows it. */
  function ReadText(s: string): (r: Option<(string, string)>)
    ensures r.Some? ==> |r.value.1| < |s|
  {
    if s == [] then None
    else if s[0] == '"' then Some(("", s[1..]))
    else if s[0] != '\\' then
      if s[0] < 0x20 as char then None else Prepend(s[0], ReadText(s[1..]))
    else if |s| >= 6 && s[1] == 'u' then
      var c := ReadHex(s[2..6]);
      if c.None? then None else Prepend(c.value, ReadText(s[6..]))
    else if |s| >= 2 then
      var c := ReadShort(s[1]);
      if c.None? then None else Prepend(c.value, ReadText(s[2..]))
    else None
  }

  function ReadNumber(s: string): (r: Option<(int, string)>)
    ensures r.Some? ==> |r.value.1| < |s|
  {
    var negative := s != [] && s[0] == '-';
    var d := if negative then s[1..] else s;
    SpanSplits(d);
    var k := Span(d);
    if !Numeral(d[..k]) then None
    else Some((if negative then 0 - Value(d[..k]) else Value(d[..k]), d[k..]))
  }

  lemma {:induction false} SpanSplits(s: string)
    ensures Span(s) <= |s| && AllDigits(s[..Span(s)])
  {
    if s != [] && IsDigit(s[0]) {
      SpanSplits(s[1..]);
      assert s[..Span(s)] == [s[0]] + s[1..][..Span(s[1..])];
    }
  }

  function Literal(s: string, word: string, v: Json): Option<(Json, string)> {
    if |word| <= |s| && s[..|word|] == word then Some((v, s[|word|..])) else None
  }

  /** A value and what follows it. */
  function ReadValue(s: string): (r: Option<(Json, string)>)
    ensures r.Some? ==> |r.value.1| < |s|
    decreases |s|, 0
  {
    if s == [] then None
    else if s[0] == 'n' then Literal(s, "null", Null)
    else if s[0] == 't' then Literal(s, "true", Bool(true))
    else if s[0] == 'f' then Literal(s, "false", Bool(false))
    else if s[0] == '"' then
      var r := ReadText(s[1..]);
      if r.None? then None else Some((Text(r.value.0), r.value.1))
    else if s[0] == '[' then
      if |s| > 1 && s[1] == ']' then Some((Array([]), s[2..]))
      else
        var r := ReadItems(s[1..]);
        if r.None? then None else Some((Array(r.value.0), r.value.1))
    else if s[0] == '{' then
      if |s| > 1 && s[1] == '}' then Some((Object(map[]), s[2..]))
      else
        var r := ReadMembers(s[1..]);
        if r.None? then None else Some((Object(Fields(r.value.0)), r.value.1))
    else
      var r := ReadNumber(s);
      if r.None? then None else Some((Number(r.value.0), r.value.1))
  }

  /** One or more values up to the closing bracket. */
  function ReadItems(s: string): (r: Option<(seq<Json>, string)>)
    ensures r.Some? ==> |r.value.1| < |s|
    decreases |s|, 1
  {
    var first := ReadValue(s);
    if first.None? || first.value.1 == [] then None
    else
      var v, t := first.value.0, first.value.1;
      if t[0] == ']' then Some(([v], t[1..]))
      else if t[0] == ',' then
        var rest := ReadItems(t[1..]);
        if rest.None? then None else Some(([v] + rest.value.0, rest.value.1))
      else None
  }

  /** One or more members up to the closing brace, in the order of the text. */
  function ReadMembers(s: string): (r: Option<(seq<(string, Json)>, string)>)
    ensures r.Some? ==> |r.value.1| < |s|
    decreases |s|, 1
  {
    if s == [] || s[0] != '"' then None
    else
      var key := ReadText(s[1..]);
      if key.None? || key.value.1 == [] || key.value.1[0] != ':' then None
      else
        var first := ReadValue(key.value.1[1..]);
        if first.None? || first.value.1 == [] then None
        else
          var m, t := (key.value.0, first.value.0), first.value.1;
          if t[0] == '}' then Some(([m], t[1..]))
          else if t[0] == ',' then
            var rest := ReadMembers(t[1..]);
            if rest.None? then None else Some(([m] + rest.value.0, rest.value.1))
          else None
  }

  /** The object that members make; the last one of a name counts. */
  function Fields(members: seq<(string, Json)>): map<string, Json> {
    if members == [] then map[] else map[members[0].0 := members[0].1] + Fields(members[1..])
  }
}
