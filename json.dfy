/** `JSON.stringify` without indentation and `JSON.parse`, over a JSON tree
    whose numbers are integers. */
module Json {
  import opened Wrappers
  import JsString

  datatype Json =
    | JNull
    | JBool(b: bool)
    | JNum(n: int)
    | JStr(s: string)
    | JArr(items: seq<Json>)
    | JObj(members: seq<Member>)

  /** One `"key": value` pair of an object, in source order. */
  datatype Member = Member(key: string, value: Json)

  /** The white space JSON allows between tokens. */
  predicate IsJsonWhitespace(c: char) {
    c == ' ' || c == '\t' || c == '\n' || c == '\r'
  }

  function SkipWhitespace(s: string): (r: string)
    ensures |r| <= |s| && r == s[|s| - |r|..]
    ensures r == [] || !IsJsonWhitespace(r[0])
  {
    if |s| > 0 && IsJsonWhitespace(s[0]) then SkipWhitespace(s[1..]) else s
  }

  function LowerHexDigit(v: int): (c: char)
    requires 0 <= v < 16
  {
    if v < 10 then ('0' as int + v) as char else ('a' as int + v - 10) as char
  }

  /** How `JSON.stringify` writes one character of a string. */
  function EscapeChar(c: char): (r: string)
    ensures |r| >= 1
  {
    if c == '"' then "\\\""
    else if c == '\\' then "\\\\"
    else if c == '\U{0008}' then "\\b"
    else if c == '\U{000C}' then "\\f"
    else if c == '\n' then "\\n"
    else if c == '\r' then "\\r"
    else if c == '\t' then "\\t"
    else if (c as int) < 0x20 then ['\\', 'u', '0', '0', LowerHexDigit(c as int / 16), LowerHexDigit(c as int % 16)]
    else [c]
  }

  function EscapeString(s: string): string {
    if s == [] then "" else EscapeChar(s[0]) + EscapeString(s[1..])
  }

  function Quote(s: string): string {
    "\"" + EscapeString(s) + "\""
  }

  /** `JSON.stringify(v)`: no white space; members in their order. */
  function Serialize(v: Json): (r: string)
    decreases v
  {
    match v
    case JNull => "null"
    case JBool(b) => if b then "true" else "false"
    case JNum(n) => JsString.IntToString(n)
    case JStr(s) => Quote(s)
    case JArr(items) => "[" + SerializeItems(items) + "]"
    case JObj(members) => "{" + SerializeMembers(members) + "}"
  }

  function SerializeItems(items: seq<Json>): string
    decreases items
  {
    if items == [] then ""
    else if |items| == 1 then Serialize(items[0])
    else Serialize(items[0]) + "," + SerializeItems(items[1..])
  }

  function SerializeMembers(members: seq<Member>): string
    decreases members
  {
    if members == [] then ""
    else
      var m := members[0];
      var first := Quote(m.key) + ":" + Serialize(m.value);
      if |members| == 1 then first else first + "," + SerializeMembers(members[1..])
  }

  const SyntaxError := "SyntaxError"

  predicate IsHex(c: char) {
    ('0' <= c <= '9') || ('a' <= c <= 'f') || ('A' <= c <= 'F')
  }

  function HexValue(c: char): (v: int)
    requires IsHex(c)
    ensures 0 <= v < 16
  {
    if '0' <= c <= '9' then c as int - '0' as int
    else if 'a' <= c <= 'f' then c as int - 'a' as int + 10
    else c as int - 'A' as int + 10
  }

  /** The value of four hex digits at the start of `s`. */
  function Hex4(s: string): (r: Option<int>)
    ensures r.Some? ==> |s| >= 4 && 0 <= r.value < 0x10000
  {
    if |s| >= 4 && IsHex(s[0]) && IsHex(s[1]) && IsHex(s[2]) && IsHex(s[3]) then
      Some(((HexValue(s[0]) * 16 + HexValue(s[1])) * 16 + HexValue(s[2])) * 16 + HexValue(s[3]))
    else None
  }

  /** One escape after a backslash: the character it stands for and how
      many characters it takes. A `\u` escape of a high surrogate followed
      by one of a low surrogate is one character. */
  function ParseEscape(s: string): (r: Result<(char, nat)>)
    ensures r.Ok? ==> 1 <= r.value.1 <= |s|
  {
    if s == [] then Err(SyntaxError)
    else if s[0] == '"' then Ok(('"', 1))
    else if s[0] == '\\' then Ok(('\\', 1))
    else if s[0] == '/' then Ok(('/', 1))
    else if s[0] == 'b' then Ok(('\U{0008}', 1))
    else if s[0] == 'f' then Ok(('\U{000C}', 1))
    else if s[0] == 'n' then Ok(('\n', 1))
    else if s[0] == 'r' then Ok(('\r', 1))
    else if s[0] == 't' then Ok(('\t', 1))
    else if s[0] == 'u' then
      match Hex4(s[1..])
      case None => Err(SyntaxError)
      case Some(u) =>
        if u < 0xD800 || u >= 0xE000 then Ok((u as char, 5))
        else if u < 0xDC00 && |s| >= 7 && s[5] == '\\' && s[6] == 'u' then
          match Hex4(s[7..])
          case Some(l) =>
            if 0xDC00 <= l < 0xE000 then Ok(((0x10000 + (u - 0xD800) * 0x400 + (l - 0xDC00)) as char, 11))
            else Err(SyntaxError)
          case None => Err(SyntaxError)
        else Err(SyntaxError)
    else Err(SyntaxError)
  }

  /** The rest of a string literal after its opening quote: its characters
      and the text after the closing quote. A raw control character or a
      missing closing quote is an error. */
  function ParseString(s: string): (r: Result<(string, string)>)
    ensures r.Ok? ==> |r.value.1| < |s|
    decreases |s|
  {
    if s == [] then Err(SyntaxError)
    else if s[0] == '"' then Ok(("", s[1..]))
    else if (s[0] as int) < 0x20 then Err(SyntaxError)
    else if s[0] == '\\' then
      match ParseEscape(s[1..])
      case Err(e) => Err(e)
      case Ok((c, k)) =>
        match ParseString(s[1 + k..])
        case Ok((t, rest)) => Ok(([c] + t, rest))
        case Err(e) => Err(e)
    else
      match ParseString(s[1..])
      case Ok((t, rest)) => Ok(([s[0]] + t, rest))
      case Err(e) => Err(e)
  }

  /** A number: `-?(0|[1-9][0-9]*)`. A fraction or exponent is not part of
      this model and is refused. */
  function ParseNumber(s: string): (r: Result<(Json, string)>)
    ensures r.Ok? ==> |r.value.1| < |s|
  {
    var negative := |s| > 0 && s[0] == '-';
    var u := if negative then s[1..] else s;
    if u == [] || !JsString.IsDigit(u[0]) then Err(SyntaxError)
    else
      var n := if u[0] == '0' then 1 else JsString.DigitRun(u, 10);
      assert JsString.AllRadixDigits(u[..n], 10);
      var magnitude: int := JsString.DigitsValue(u[..n], 10);
      var rest := u[n..];
      if rest != [] && (rest[0] == '.' || rest[0] == 'e' || rest[0] == 'E') then Err(SyntaxError)
      else Ok((JNum(if negative then -magnitude else magnitude), rest))
  }

  /** One value, after optional white space, and the text after it. */
  function ParseValue(s: string): (r: Result<(Json, string)>)
    ensures r.Ok? ==> |r.value.1| < |s|
    decreases |s|, 1
  {
    ParseToken(SkipWhitespace(s))
  }

  /** A literal word standing for `v`. */
  function ParseLiteral(t: string, word: string, v: Json): (r: Result<(Json, string)>)
    requires word != []
    ensures r.Ok? ==> |r.value.1| < |t|
  {
    if JsString.StartsWith(t, word) then Ok((v, t[|word|..])) else Err(SyntaxError)
  }

  /** One value starting right at the first character of `t`. */
  function ParseToken(t: string): (r: Result<(Json, string)>)
    ensures r.Ok? ==> |r.value.1| < |t|
    decreases |t|, 0
  {
    if t == [] then Err(SyntaxError)
    else if t[0] == '{' then ParseObject(t[1..])
    else if t[0] == '[' then ParseArray(t[1..])
    else if t[0] == '"' then
      match ParseString(t[1..])
      case Ok((str, rest)) => Ok((JStr(str), rest))
      case Err(e) => Err(e)
    else if t[0] == 't' then ParseLiteral(t, "true", JBool(true))
    else if t[0] == 'f' then ParseLiteral(t, "false", JBool(false))
    else if t[0] == 'n' then ParseLiteral(t, "null", JNull)
    else ParseNumber(t)
  }

  /** The rest of an array after `[`. */
  function ParseArray(s: string): (r: Result<(Json, string)>)
    ensures r.Ok? ==> |r.value.1| < |s|
    decreases |s|, 3
  {
    var t := SkipWhitespace(s);
    if t != [] && t[0] == ']' then Ok((JArr([]), t[1..]))
    else
      match ParseItems(t)
      case Ok((items, rest)) => Ok((JArr(items), rest))
      case Err(e) => Err(e)
  }

  /** What follows a value inside an array or object: a `,` to go on, the
      closing bracket to stop, or an error. Gives whether to go on and the
      text after the separator. */
  function Separator(after: string, close: char): (r: Result<(bool, string)>)
    ensures r.Ok? ==> |r.value.1| < |after|
  {
    var t := SkipWhitespace(after);
    if t != [] && t[0] == ',' then Ok((true, t[1..]))
    else if t != [] && t[0] == close then Ok((false, t[1..]))
    else Err(SyntaxError)
  }

  /** Values separated by `,` up to and including the closing `]`. */
  function ParseItems(s: string): (r: Result<(seq<Json>, string)>)
    ensures r.Ok? ==> |r.value.1| < |s|
    decreases |s|, 2
  {
    match ParseValue(s)
    case Err(e) => Err(e)
    case Ok((v, after)) =>
      match Separator(after, ']')
      case Err(e) => Err(e)
      case Ok((more, t)) =>
        if more then
          match ParseItems(t)
          case Ok((vs, rest)) => Ok(([v] + vs, rest))
          case Err(e) => Err(e)
        else Ok(([v], t))
  }

  /** The rest of an object after `{`. */
  function ParseObject(s: string): (r: Result<(Json, string)>)
    ensures r.Ok? ==> |r.value.1| < |s|
    decreases |s|, 4
  {
    var t := SkipWhitespace(s);
    if t != [] && t[0] == '}' then Ok((JObj([]), t[1..]))
    else
      match ParseMembers(t)
      case Ok((ms, rest)) => Ok((JObj(ms), rest))
      case Err(e) => Err(e)
  }

  /** A `"key":` prefix: the key and the text after the colon. */
  function ParseKey(s: string): (r: Result<(string, string)>)
    ensures r.Ok? ==> |r.value.1| < |s|
  {
    var t := SkipWhitespace(s);
    if t == [] || t[0] != '"' then Err(SyntaxError)
    else
      match ParseString(t[1..])
      case Err(e) => Err(e)
      case Ok((key, afterKey)) =>
        var t2 := SkipWhitespace(afterKey);
        if t2 == [] || t2[0] != ':' then Err(SyntaxError) else Ok((key, t2[1..]))
  }

  /** One `"key": value` pair. */
  function ParseMember(s: string): (r: Result<(Member, string)>)
    ensures r.Ok? ==> |r.value.1| < |s|
    decreases |s|, 2
  {
    match ParseKey(s)
    case Err(e) => Err(e)
    case Ok((key, valueText)) =>
      match ParseValue(valueText)
      case Err(e) => Err(e)
      case Ok((v, after)) => Ok((Member(key, v), after))
  }

  /** `"key": value` pairs separated by `,` up to and including the `}`. */
  function ParseMembers(s: string): (r: Result<(seq<Member>, string)>)
    ensures r.Ok? ==> |r.value.1| < |s|
    decreases |s|, 3
  {
    match ParseMember(s)
    case Err(e) => Err(e)
    case Ok((m, after)) =>
      match Separator(after, '}')
      case Err(e) => Err(e)
      case Ok((more, t)) =>
        if more then
          match ParseMembers(t)
          case Ok((ms, rest)) => Ok(([m] + ms, rest))
          case Err(e) => Err(e)
        else Ok(([m], t))
  }

  /** `JSON.parse(text)`: one value with only white space around it. */
  function Parse(text: string): Result<Json> {
    match ParseValue(text)
    case Err(e) => Err(e)
    case Ok((v, rest)) => if SkipWhitespace(rest) == [] then Ok(v) else Err(SyntaxError)
  }

  /** The value of the last member named `key` (`JSON.parse` keeps the last
      of duplicated keys): no member after it has that key. */
  function Lookup(members: seq<Member>, key: string): (r: Option<Json>)
    ensures r.Some? ==> exists i :: 0 <= i < |members| && members[i] == Member(key, r.value)
                                   && forall j :: i < j < |members| ==> members[j].key != key
    ensures r.None? ==> forall i :: 0 <= i < |members| ==> members[i].key != key
  {
    if members == [] then None
    else
      var last := members[|members| - 1];
      if last.key == key then Some(last.value)
      else
        var init := members[..|members| - 1];
        var r := Lookup(init, key);
        if r.Some? then
          var i :| 0 <= i < |init| && init[i] == Member(key, r.value)
                   && forall j :: i < j < |init| ==> init[j].key != key;
          assert members[i] == Member(key, r.value);
          assert forall j :: i < j < |members| ==> members[j].key != key by {
            forall j | i < j < |members| ensures members[j].key != key {
              if j < |init| { assert members[j] == init[j]; }
            }
          }
          r
        else r
  }

  // ---- Round trip -------------------------------------------------------

  /** Text that may follow a serialized value without changing how it is read:
      empty, or not continuing a number. */
  predicate Delimited(rest: string) {
    rest == [] || !(JsString.IsDigit(rest[0]) || rest[0] == '.' || rest[0] == 'e' || rest[0] == 'E')
  }

  lemma NoWhitespaceToSkip(s: string)
    requires s != [] && !IsJsonWhitespace(s[0])
    ensures SkipWhitespace(s) == s
  {
  }

  /** A serialized value starts with a character that is neither white
      space nor a closing bracket. */
  lemma SerializeHead(v: Json)
    ensures |Serialize(v)| > 0
    ensures !IsJsonWhitespace(Serialize(v)[0])
    ensures Serialize(v)[0] != ']' && Serialize(v)[0] != '}'
  {
    if v.JNum? {
      var n := v.n;
      var d := JsString.NatToString(if n < 0 then -n else n);
      assert JsString.IsDigit(d[0]);
    }
  }

  function PrependChar(c: char, r: Result<(string, string)>): Result<(string, string)> {
    match r
    case Ok((t, rest)) => Ok(([c] + t, rest))
    case Err(e) => Err(e)
  }

  lemma ControlCharRead(c: char, rest: string)
    requires (c as int) < 0x20
    requires c != '\U{0008}' && c != '\U{000C}' && c != '\n' && c != '\r' && c != '\t'
    ensures ParseString(EscapeChar(c) + rest) == PrependChar(c, ParseString(rest))
  {
    var n := c as int;
    var hi, lo := n / 16, n % 16;
    assert n == hi * 16 + lo && 0 <= hi < 2;
    var escape := ['\\', 'u', '0', '0', LowerHexDigit(hi), LowerHexDigit(lo)];
    assert EscapeChar(c) == escape;
    var e := escape + rest;
    HexDigitRead(hi);
    HexDigitRead(lo);
    var h := e[2..];
    assert h[0] == '0' && h[1] == '0' && h[2] == LowerHexDigit(hi) && h[3] == LowerHexDigit(lo);
    assert Hex4(h) == Some(((0 * 16 + 0) * 16 + hi) * 16 + lo);
    assert e[1..][1..] == h;
    assert ParseEscape(e[1..]) == Ok((c, 5));
    assert e[1 + 5..] == rest;
  }

  lemma HexDigitRead(v: int)
    requires 0 <= v < 16
    ensures IsHex(LowerHexDigit(v)) && HexValue(LowerHexDigit(v)) == v
  {
  }

  lemma EscapeCharRead(c: char, rest: string)
    ensures ParseString(EscapeChar(c) + rest) == PrependChar(c, ParseString(rest))
  {
    var e := EscapeChar(c) + rest;
    if c == '"' || c == '\\' || c == '\U{0008}' || c == '\U{000C}' || c == '\n' || c == '\r' || c == '\t' {
      assert |EscapeChar(c)| == 2 && e[0] == '\\';
      assert e[2..] == rest;
    } else if (c as int) < 0x20 {
      ControlCharRead(c, rest);
    } else {
      assert e[1..] == rest;
    }
  }

  /** The escaped characters of `s` and a closing quote read back as `s`. */
  lemma {:induction false} EscapeStringRead(s: string, rest: string)
    ensures ParseString(EscapeString(s) + "\"" + rest) == Ok((s, rest))
    decreases |s|
  {
    if s == [] {
      assert EscapeString(s) + "\"" + rest == "\"" + rest;
    } else {
      var e, more := EscapeChar(s[0]), EscapeString(s[1..]);
      var tail := more + "\"" + rest;
      assert EscapeString(s) == e + more;
      JsString.ConcatAssoc(e, more, "\"");
      JsString.ConcatAssoc(e, more + "\"", rest);
      EscapeCharRead(s[0], tail);
      EscapeStringRead(s[1..], rest);
      JsString.HeadTail(s);
    }
  }

  lemma QuoteRead(s: string, rest: string)
    ensures |Quote(s) + rest| > 0 && (Quote(s) + rest)[0] == '"'
    ensures ParseString((Quote(s) + rest)[1..]) == Ok((s, rest))
  {
    EscapeStringRead(s, rest);
    assert (Quote(s) + rest)[1..] == EscapeString(s) + "\"" + rest;
  }

  lemma {:induction false} DigitRunStops(d: string, rest: string)
    requires JsString.AllRadixDigits(d, 10)
    requires rest == [] || !JsString.IsDigit(rest[0])
    ensures JsString.DigitRun(d + rest, 10) == |d|
    decreases |d|
  {
    if d != [] {
      assert (d + rest)[1..] == d[1..] + rest;
      DigitRunStops(d[1..], rest);
    }
  }

  /** The digits of a natural number, followed by delimited text, read back. */
  lemma UnsignedRead(m: nat, rest: string)
    requires Delimited(rest)
    ensures ParseNumber(JsString.NatToString(m) + rest) == Ok((JNum(m), rest))
  {
    var d := JsString.NatToString(m);
    var u := d + rest;
    JsString.NatToStringValue(m);
    JsString.NatToStringHead(m);
    assert u[0] == d[0] && JsString.IsDigit(u[0]) && u[0] != '-';
    var k := if u[0] == '0' then 1 else JsString.DigitRun(u, 10);
    if u[0] == '0' {
      assert |d| == 1;
    } else {
      DigitRunStops(d, rest);
    }
    assert u[..k] == d && u[k..] == rest;
  }

  lemma NumberRead(n: int, rest: string)
    requires Delimited(rest)
    ensures ParseNumber(JsString.IntToString(n) + rest) == Ok((JNum(n), rest))
  {
    if n >= 0 {
      UnsignedRead(n, rest);
    } else {
      var d := JsString.NatToString(-n);
      NegativeRead(-n, rest);
      assert JsString.IntToString(n) == "-" + d;
      JsString.ConcatAssoc("-", d, rest);
    }
  }

  lemma NegativeRead(m: nat, rest: string)
    requires Delimited(rest)
    ensures ParseNumber("-" + (JsString.NatToString(m) + rest)) == Ok((JNum(-(m as int)), rest))
  {
    var d := JsString.NatToString(m);
    UnsignedRead(m, rest);
    assert (d + rest)[0] == d[0];
    assert JsString.IsDigit(d[0]);
    NegatedRead(d + rest, m, rest);
  }

  /** A minus sign before a number's digits negates it. */
  lemma NegatedRead(u: string, m: int, rest: string)
    requires u != [] && JsString.IsDigit(u[0]) && ParseNumber(u) == Ok((JNum(m), rest))
    ensures ParseNumber("-" + u) == Ok((JNum(-m), rest))
  {
    var s := "-" + u;
    assert s[0] == '-' && s[1..] == u;
  }

  lemma WordRead(word: string, v: Json, rest: string)
    requires word != []
    ensures ParseLiteral(word + rest, word, v) == Ok((v, rest))
  {
    assert (word + rest)[..|word|] == word && (word + rest)[|word|..] == rest;
  }

  lemma LiteralRead(v: Json, rest: string)
    requires v.JNull? || v.JBool?
    ensures ParseToken(Serialize(v) + rest) == Ok((v, rest))
  {
    var w := Serialize(v);
    WordRead(w, v, rest);
    if v.JNull? {
      assert (w + rest)[0] == 'n';
    } else if v.b {
      assert (w + rest)[0] == 't';
    } else {
      assert (w + rest)[0] == 'f';
    }
  }

  lemma StringTokenRead(str: string, rest: string)
    ensures ParseToken(Serialize(JStr(str)) + rest) == Ok((JStr(str), rest))
  {
    QuoteRead(str, rest);
  }

  lemma NumberTokenRead(n: int, rest: string)
    requires Delimited(rest)
    ensures ParseToken(Serialize(JNum(n)) + rest) == Ok((JNum(n), rest))
  {
    var s := Serialize(JNum(n)) + rest;
    NumberRead(n, rest);
    SerializeHead(JNum(n));
    var d := JsString.NatToString(if n < 0 then -n else n);
    assert JsString.IsDigit(d[0]);
    assert s[0] == '-' || JsString.IsDigit(s[0]);
  }

  /** A closing bracket at the first character is read as it stands. */
  lemma CloseRead(c: char, rest: string)
    requires !IsJsonWhitespace(c)
    ensures [c] + rest != [] && ([c] + rest)[0] == c
    ensures SkipWhitespace([c] + rest) == [c] + rest && ([c] + rest)[1..] == rest
  {
    var t := [c] + rest;
    assert t[0] == c;
    NoWhitespaceToSkip(t);
    assert t[1..] == rest;
  }

  lemma {:induction false} ArrayBodyRead(items: seq<Json>, rest: string)
    ensures ParseArray(SerializeItems(items) + "]" + rest) == Ok((JArr(items), rest))
    decreases items, 1
  {
    var t := SerializeItems(items) + "]" + rest;
    if items == [] {
      assert t == [']'] + rest;
      CloseRead(']', rest);
    } else {
      assert t == SerializeItems(items) + ("]" + rest);
      ItemsHead(items, "]" + rest);
      ItemsRoundTrip(items, rest);
    }
  }

  lemma {:induction false} ArrayTokenRead(items: seq<Json>, rest: string)
    ensures ParseToken(Serialize(JArr(items)) + rest) == Ok((JArr(items), rest))
    decreases items, 2
  {
    var s := Serialize(JArr(items)) + rest;
    assert s[0] == '[' && s[1..] == SerializeItems(items) + "]" + rest;
    ArrayBodyRead(items, rest);
  }

  lemma {:induction false} ObjectBodyRead(members: seq<Member>, rest: string)
    ensures ParseObject(SerializeMembers(members) + "}" + rest) == Ok((JObj(members), rest))
    decreases members, 1
  {
    var t := SerializeMembers(members) + "}" + rest;
    if members == [] {
      assert t == ['}'] + rest;
      CloseRead('}', rest);
    } else {
      assert t == SerializeMembers(members) + ("}" + rest);
      MembersHead(members, "}" + rest);
      MembersRoundTrip(members, rest);
    }
  }

  lemma {:induction false} ObjectTokenRead(members: seq<Member>, rest: string)
    ensures ParseToken(Serialize(JObj(members)) + rest) == Ok((JObj(members), rest))
    decreases members, 2
  {
    var s := Serialize(JObj(members)) + rest;
    assert s[0] == '{' && s[1..] == SerializeMembers(members) + "}" + rest;
    ObjectBodyRead(members, rest);
  }

  /** Reading a serialized value at the first character. */
  lemma {:induction false} TokenRoundTrip(v: Json, rest: string)
    requires Delimited(rest)
    ensures ParseToken(Serialize(v) + rest) == Ok((v, rest))
    decreases v, 3
  {
    match v
    case JNull => LiteralRead(v, rest);
    case JBool(_) => LiteralRead(v, rest);
    case JNum(n) => NumberTokenRead(n, rest);
    case JStr(str) => StringTokenRead(str, rest);
    case JArr(items) => ArrayTokenRead(items, rest);
    case JObj(members) => ObjectTokenRead(members, rest);
  }

  /** Reading back a serialized value gives the value and stops right after it. */
  lemma {:induction false} ValueRoundTrip(v: Json, rest: string)
    requires Delimited(rest)
    ensures ParseValue(Serialize(v) + rest) == Ok((v, rest))
    decreases v, 4
  {
    SerializeHead(v);
    NoWhitespaceToSkip(Serialize(v) + rest);
    TokenRoundTrip(v, rest);
  }

  lemma ItemsHead(items: seq<Json>, tail: string)
    requires items != []
    ensures |SerializeItems(items) + tail| > 0 && (SerializeItems(items) + tail)[0] != ']'
    ensures SkipWhitespace(SerializeItems(items) + tail) == SerializeItems(items) + tail
  {
    var w := Serialize(items[0]);
    var more := if |items| == 1 then "" else "," + SerializeItems(items[1..]);
    assert SerializeItems(items) == w + more by {
      if |items| == 1 {
        assert w + more == w;
      }
    }
    SerializeHead(items[0]);
    JsString.ConcatAssoc(w, more, tail);
    HeadKept(w, more + tail);
  }

  lemma MembersHead(members: seq<Member>, tail: string)
    requires members != []
    ensures |SerializeMembers(members) + tail| > 0 && (SerializeMembers(members) + tail)[0] == '"'
    ensures SkipWhitespace(SerializeMembers(members) + tail) == SerializeMembers(members) + tail
  {
    var m := members[0];
    var first := Quote(m.key) + ":" + Serialize(m.value);
    var more := if |members| == 1 then "" else "," + SerializeMembers(members[1..]);
    assert SerializeMembers(members) == first + more by {
      if |members| == 1 {
        assert first + more == first;
      }
    }
    assert first[0] == '"';
    JsString.ConcatAssoc(first, more, tail);
    HeadKept(first, more + tail);
  }

  /** Text after a token that cannot start with white space is not trimmed. */
  lemma HeadKept(w: string, rest: string)
    requires |w| > 0 && !IsJsonWhitespace(w[0])
    ensures |w + rest| > 0 && (w + rest)[0] == w[0]
    ensures SkipWhitespace(w + rest) == w + rest
  {
    assert (w + rest)[0] == w[0];
    NoWhitespaceToSkip(w + rest);
  }

  lemma SeparatorRead(sep: char, tail: string, close: char)
    requires sep == ',' || sep == close
    requires close == ']' || close == '}'
    ensures Separator([sep] + tail, close) == Ok((sep == ',', tail))
  {
    NoWhitespaceToSkip([sep] + tail);
    assert ([sep] + tail)[1..] == tail;
  }

  lemma KeyRead(key: string, tail: string)
    ensures ParseKey(Quote(key) + ":" + tail) == Ok((key, tail))
  {
    var s := Quote(key) + ":" + tail;
    assert s == Quote(key) + (":" + tail);
    QuoteRead(key, ":" + tail);
    NoWhitespaceToSkip(s);
    NoWhitespaceToSkip(":" + tail);
    assert (":" + tail)[1..] == tail;
  }

  /** The items of an array, then `]`, read back as the items. */
  lemma {:induction false} ItemsRoundTrip(items: seq<Json>, rest: string)
    requires items != []
    ensures ParseItems(SerializeItems(items) + "]" + rest) == Ok((items, rest))
    decreases items, 0
  {
    var w := Serialize(items[0]);
    if |items| == 1 {
      assert SerializeItems(items) == w;
      JsString.ConcatAssoc(w, "]", rest);
      LastItemRead(items[0], rest);
      assert [items[0]] == items;
    } else {
      var more := SerializeItems(items[1..]) + "]" + rest;
      assert SerializeItems(items) == w + "," + SerializeItems(items[1..]);
      Regroup(w, SerializeItems(items[1..]), "]", rest);
      ItemsRoundTrip(items[1..], rest);
      NextItemRead(items[0], more, items[1..], rest);
      JsString.HeadTail(items);
    }
  }

  /** The text of a list with more to come, regrouped around its first separator. */
  lemma Regroup(a: string, b: string, close: string, rest: string)
    ensures a + "," + b + close + rest == a + ("," + (b + close + rest))
  {
  }

  lemma {:induction false} LastItemRead(v: Json, rest: string)
    ensures ParseItems(Serialize(v) + ("]" + rest)) == Ok(([v], rest))
    decreases v, 5
  {
    ValueRoundTrip(v, "]" + rest);
    SeparatorRead(']', rest, ']');
  }

  lemma {:induction false} NextItemRead(v: Json, more: string, vs: seq<Json>, rest: string)
    requires ParseItems(more) == Ok((vs, rest))
    ensures ParseItems(Serialize(v) + ("," + more)) == Ok(([v] + vs, rest))
    decreases v, 5
  {
    ValueRoundTrip(v, "," + more);
    SeparatorRead(',', more, ']');
  }

  /** One `"key":value` pair, followed by delimited text, read back. */
  lemma {:induction false} MemberRead(m: Member, after: string)
    requires Delimited(after)
    ensures ParseMember(Quote(m.key) + ":" + (Serialize(m.value) + after)) == Ok((m, after))
    decreases m, 0
  {
    KeyRead(m.key, Serialize(m.value) + after);
    ValueRoundTrip(m.value, after);
  }

  lemma {:induction false} LastMemberRead(m: Member, rest: string)
    ensures ParseMembers(SerializeMembers([m]) + "}" + rest) == Ok(([m], rest))
    decreases m, 1
  {
    var k, w := Quote(m.key), Serialize(m.value);
    assert SerializeMembers([m]) == k + ":" + w;
    MemberText(k, w, "}" + rest);
    assert k + ":" + w + "}" + rest == k + ":" + w + ("}" + rest);
    MemberRead(m, "}" + rest);
    SeparatorRead('}', rest, '}');
  }

  /** The text of one member followed by more, regrouped after the colon. */
  lemma MemberText(k: string, w: string, after: string)
    ensures k + ":" + w + after == k + ":" + (w + after)
  {
  }

  /** The members of an object, then `}`, read back as the members. */
  lemma {:induction false} MembersRoundTrip(members: seq<Member>, rest: string)
    requires members != []
    ensures ParseMembers(SerializeMembers(members) + "}" + rest) == Ok((members, rest))
    decreases members, 0
  {
    var m := members[0];
    if |members| == 1 {
      assert members == [m];
      LastMemberRead(m, rest);
    } else {
      var k, w := Quote(m.key), Serialize(m.value);
      var tail := SerializeMembers(members[1..]);
      var more := tail + "}" + rest;
      MembersText(members, rest);
      MembersRoundTrip(members[1..], rest);
      NextMemberRead(m, more, members[1..], rest);
      JsString.HeadTail(members);
    }
  }

  lemma MembersText(members: seq<Member>, rest: string)
    requires |members| > 1
    ensures var k, w := Quote(members[0].key), Serialize(members[0].value);
      SerializeMembers(members) + "}" + rest == k + ":" + (w + ("," + (SerializeMembers(members[1..]) + "}" + rest)))
  {
    var k, w := Quote(members[0].key), Serialize(members[0].value);
    var tail := SerializeMembers(members[1..]);
    assert SerializeMembers(members) == k + ":" + w + "," + tail;
    Regroup(k + ":" + w, tail, "}", rest);
    MemberText(k, w, "," + (tail + "}" + rest));
  }

  lemma {:induction false} NextMemberRead(m: Member, more: string, ms: seq<Member>, rest: string)
    requires ParseMembers(more) == Ok((ms, rest))
    ensures ParseMembers(Quote(m.key) + ":" + (Serialize(m.value) + ("," + more))) == Ok(([m] + ms, rest))
    decreases m, 1
  {
    MemberRead(m, "," + more);
    SeparatorRead(',', more, '}');
  }

  /** `JSON.parse(JSON.stringify(v))` is `v`. */
  lemma ParseSerialize(v: Json)
    ensures Parse(Serialize(v)) == Ok(v)
  {
    ValueRoundTrip(v, "");
    assert Serialize(v) + "" == Serialize(v);
  }
}
