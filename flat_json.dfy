/** The text form of a QR token: a flat JSON object (RFC 8259 section 4) whose
    member values are strings or integers. `Stringify` writes what
    `JSON.stringify` writes for such an object (no whitespace, strings escaped
    as in section 7 of RFC 8259 and ECMA-262's QuoteJSONString); `Parse` reads
    it back the way `JSON.parse` does, later duplicate keys overriding earlier
    ones. */
module FlatJson {
  import opened Wrappers
  import opened Decimal

  datatype Value = Str(s: string) | Num(n: int)

  type Member = (string, Value)

  type Object = map<string, Value>

  // ---------------------------------------------------------------- writing

  function HexDigit(d: nat): (c: char)
    requires d < 16
    ensures IsHexDigit(c) && HexValue(c) == d
  {
    if d < 10 then DigitChar(d) else ('a' as int + (d - 10)) as char
  }

  /** How `JSON.stringify` writes one character inside a string literal. */
  function EscapeChar(c: char): (e: string)
    ensures |e| >= 1 && e[0] != '"'
  {
    if c == '"' then ['\\', '"']
    else if c == '\\' then ['\\', '\\']
    else if c as int == 0x08 then ['\\', 'b']
    else if c == '\t' then ['\\', 't']
    else if c == '\n' then ['\\', 'n']
    else if c as int == 0x0C then ['\\', 'f']
    else if c == '\r' then ['\\', 'r']
    else if c as int < 0x20 then ['\\', 'u', '0', '0', HexDigit(c as int / 16), HexDigit(c as int % 16)]
    else [c]
  }

  function EscapeString(s: string): string {
    if |s| == 0 then "" else EscapeChar(s[0]) + EscapeString(s[1..])
  }

  function QuoteString(s: string): string {
    "\"" + EscapeString(s) + "\""
  }

  function IntToString(n: int): string {
    if n < 0 then "-" + NatToString(-n) else NatToString(n)
  }

  function SerializeValue(v: Value): string {
    match v
    case Str(s) => QuoteString(s)
    case Num(n) => IntToString(n)
  }

  function SerializeMember(m: Member): string {
    QuoteString(m.0) + ":" + SerializeValue(m.1)
  }

  function SerializeMembers(ms: seq<Member>): string {
    if |ms| == 0 then ""
    else if |ms| == 1 then SerializeMember(ms[0])
    else SerializeMember(ms[0]) + "," + SerializeMembers(ms[1..])
  }

  /** The members of an object literal, in insertion order, as `JSON.stringify` writes them. */
  function Stringify(ms: seq<Member>): string {
    "{" + SerializeMembers(ms) + "}"
  }

  // ---------------------------------------------------------------- reading

  predicate IsWhitespace(c: char) {
    c == ' ' || c == '\t' || c == '\n' || c == '\r'
  }

  function SkipWhitespace(s: string): (r: string)
    ensures |r| <= |s|
    ensures r == [] || !IsWhitespace(r[0])
  {
    if |s| > 0 && IsWhitespace(s[0]) then SkipWhitespace(s[1..]) else s
  }

  predicate IsHexDigit(c: char) {
    '0' <= c <= '9' || 'a' <= c <= 'f' || 'A' <= c <= 'F'
  }

  function HexValue(c: char): (d: nat)
    requires IsHexDigit(c)
    ensures d < 16
  {
    if '0' <= c <= '9' then c as int - '0' as int
    else if 'a' <= c <= 'f' then c as int - 'a' as int + 10
    else c as int - 'A' as int + 10
  }

  predicate IsHex4(s: string) {
    |s| >= 4 && IsHexDigit(s[0]) && IsHexDigit(s[1]) && IsHexDigit(s[2]) && IsHexDigit(s[3])
  }

  function Hex4Value(s: string): (u: nat)
    requires IsHex4(s)
    ensures u < 0x10000
  {
    ((HexValue(s[0]) * 16 + HexValue(s[1])) * 16 + HexValue(s[2])) * 16 + HexValue(s[3])
  }

  /** The character an escape sequence stands for; `s` is what follows the backslash.
      A `\u` escape of a high surrogate must be followed by one of a low surrogate, and
      the pair stands for one character. */
  function ParseEscape(s: string): (r: Option<(char, string)>)
    ensures r.Some? ==> |r.value.1| < |s|
  {
    if |s| == 0 then None
    else if s[0] == '"' then Some(('"', s[1..]))
    else if s[0] == '\\' then Some(('\\', s[1..]))
    else if s[0] == '/' then Some(('/', s[1..]))
    else if s[0] == 'b' then Some((0x08 as char, s[1..]))
    else if s[0] == 'f' then Some((0x0C as char, s[1..]))
    else if s[0] == 'n' then Some(('\n', s[1..]))
    else if s[0] == 'r' then Some(('\r', s[1..]))
    else if s[0] == 't' then Some(('\t', s[1..]))
    else if s[0] == 'u' && IsHex4(s[1..]) then
      var u := Hex4Value(s[1..]);
      if 0xD800 <= u < 0xDC00 then
        if |s| >= 11 && s[5] == '\\' && s[6] == 'u' && IsHex4(s[7..]) && 0xDC00 <= Hex4Value(s[7..]) < 0xE000 then
          Some(((0x10000 + (u - 0xD800) * 0x400 + (Hex4Value(s[7..]) - 0xDC00)) as char, s[11..]))
        else None
      else if 0xDC00 <= u < 0xE000 then None
      else Some((u as char, s[5..]))
    else None
  }

  /** One character of a string literal's body. */
  function ParseStringChar(s: string): (r: Option<(char, string)>)
    ensures r.Some? ==> |r.value.1| < |s|
  {
    if |s| == 0 || s[0] == '"' || s[0] as int < 0x20 then None
    else if s[0] == '\\' then ParseEscape(s[1..])
    else Some((s[0], s[1..]))
  }

  /** The rest of a string literal after its opening quote, up to and including the closing quote. */
  function ParseStringBody(s: string): (r: Option<(string, string)>)
    ensures r.Some? ==> |r.value.1| < |s|
    decreases |s|
  {
    if |s| > 0 && s[0] == '"' then Some(("", s[1..]))
    else
      match ParseStringChar(s)
      case None => None
      case Some((c, rest)) =>
        match ParseStringBody(rest)
        case None => None
        case Some((t, rest')) => Some(([c] + t, rest'))
  }

  /** The length of the run of digits that `s` starts with. */
  function DigitRun(s: string): (k: nat)
    ensures k <= |s| && AllDigits(s[..k])
    ensures k < |s| ==> !IsDigit(s[k])
  {
    if |s| > 0 && IsDigit(s[0]) then 1 + DigitRun(s[1..]) else 0
  }

  /** An unsigned integer literal: `0`, or a nonzero digit followed by digits. */
  function ParseNat(s: string): (r: Option<(nat, string)>)
    ensures r.Some? ==> |r.value.1| < |s|
  {
    if |s| == 0 || !IsDigit(s[0]) then None
    else if s[0] == '0' then Some((0, s[1..]))
    else var k := DigitRun(s); Some((DecimalValue(s[..k]), s[k..]))
  }

  function ParseInt(s: string): (r: Option<(int, string)>)
    ensures r.Some? ==> |r.value.1| < |s|
  {
    if |s| > 0 && s[0] == '-' then
      match ParseNat(s[1..])
      case None => None
      case Some((n, rest)) => var i: int := -(n as int); Some((i, rest))
    else
      match ParseNat(s)
      case None => None
      case Some((n, rest)) => Some((n as int, rest))
  }

  function ParseValue(s: string): (r: Option<(Value, string)>)
    ensures r.Some? ==> |r.value.1| < |s|
  {
    if |s| > 0 && s[0] == '"' then
      match ParseStringBody(s[1..])
      case None => None
      case Some((t, rest)) => Some((Str(t), rest))
    else
      match ParseInt(s)
      case None => None
      case Some((n, rest)) => Some((Num(n), rest))
  }

  function ParseMember(s: string): (r: Option<(Member, string)>)
    ensures r.Some? ==> |r.value.1| < |s|
  {
    if |s| == 0 || s[0] != '"' then None
    else
      match ParseStringBody(s[1..])
      case None => None
      case Some((k, rest)) =>
        var t := SkipWhitespace(rest);
        if |t| == 0 || t[0] != ':' then None
        else
          match ParseValue(SkipWhitespace(t[1..]))
          case None => None
          case Some((v, rest')) => Some(((k, v), rest'))
  }

  /** One or more members separated by commas, then the closing brace. */
  function ParseMembers(s: string): (r: Option<(seq<Member>, string)>)
    ensures r.Some? ==> |r.value.1| < |s|
    decreases |s|
  {
    match ParseMember(s)
    case None => None
    case Some((m, rest)) =>
      var t := SkipWhitespace(rest);
      if |t| > 0 && t[0] == ',' then
        match ParseMembers(SkipWhitespace(t[1..]))
        case None => None
        case Some((ms, rest')) => Some(([m] + ms, rest'))
      else if |t| > 0 && t[0] == '}' then Some(([m], t[1..]))
      else None
  }

  /** The rest of an object after its opening brace. */
  function ParseObject(s: string): (r: Option<(seq<Member>, string)>)
  {
    var t := SkipWhitespace(s);
    if |t| > 0 && t[0] == '}' then Some(([], t[1..])) else ParseMembers(t)
  }

  /** The object a member list builds: a later member overrides an earlier one with the same key. */
  function ToObject(ms: seq<Member>): (o: Object)
    ensures o.Keys == set i | 0 <= i < |ms| :: ms[i].0
  {
    if |ms| == 0 then map[]
    else
      var init := ToObject(ms[..|ms| - 1]);
      assert forall i :: 0 <= i < |ms| - 1 ==> ms[..|ms| - 1][i] == ms[i];
      init[ms[|ms| - 1].0 := ms[|ms| - 1].1]
  }

  /** `JSON.parse` restricted to flat objects of strings and integers: `None` is a syntax error. */
  function Parse(text: string): Option<Object> {
    var t := SkipWhitespace(text);
    if |t| == 0 || t[0] != '{' then None
    else
      match ParseObject(t[1..])
      case None => None
      case Some((ms, rest)) => if SkipWhitespace(rest) == "" then Some(ToObject(ms)) else None
  }

  // ---------------------------------------------------------------- round trip

  lemma EscapeCharRoundTrip(c: char, tail: string)
    ensures ParseStringChar(EscapeChar(c) + tail) == Some((c, tail))
  {
    var e := EscapeChar(c);
    if c as int < 0x20 && c != '\t' && c != '\n' && c != '\r' && c as int != 0x08 && c as int != 0x0C {
      var d := c as int;
      var hex := ['0', '0', HexDigit(d / 16), HexDigit(d % 16)] + tail;
      assert e + tail == ['\\', 'u'] + hex;
      assert (e + tail)[1..] == ['u'] + hex;
      assert (['u'] + hex)[1..] == hex;
      assert IsHex4(hex) && Hex4Value(hex) == d;
      assert (['u'] + hex)[5..] == tail;
    } else if |e| == 2 {
      assert (e + tail)[1..] == [e[1]] + tail;
      assert ([e[1]] + tail)[1..] == tail;
    } else {
      assert (e + tail)[1..] == tail;
    }
  }

  lemma {:induction false} EscapeStringRoundTrip(s: string, tail: string)
    ensures ParseStringBody(EscapeString(s) + "\"" + tail) == Some((s, tail))
    decreases |s|
  {
    if |s| == 0 {
      assert EscapeString(s) + "\"" + tail == "\"" + tail;
      assert ("\"" + tail)[1..] == tail;
    } else {
      var rest := EscapeString(s[1..]) + "\"" + tail;
      assert EscapeString(s) + "\"" + tail == EscapeChar(s[0]) + rest;
      EscapeCharRoundTrip(s[0], rest);
      EscapeStringRoundTrip(s[1..], tail);
      assert [s[0]] + s[1..] == s;
    }
  }

  lemma QuoteStringRoundTrip(s: string, tail: string)
    ensures ParseStringBody((QuoteString(s) + tail)[1..]) == Some((s, tail))
  {
    assert (QuoteString(s) + tail)[1..] == EscapeString(s) + "\"" + tail;
    EscapeStringRoundTrip(s, tail);
  }

  lemma NatRoundTrip(n: nat, tail: string)
    requires tail == [] || !IsDigit(tail[0])
    ensures ParseNat(NatToString(n) + tail) == Some((n, tail))
  {
    var d := NatToString(n);
    var s := d + tail;
    if n == 0 {
      assert s[1..] == tail;
    } else {
      DigitRunOfNumeral(d, tail);
      assert s[..|d|] == d && s[|d|..] == tail;
      DecimalValueOfNatToString(n);
    }
  }

  lemma {:induction false} DigitRunOfNumeral(d: string, tail: string)
    requires AllDigits(d)
    requires tail == [] || !IsDigit(tail[0])
    ensures DigitRun(d + tail) == |d|
    decreases |d|
  {
    if |d| == 0 {
      assert d + tail == tail;
    } else {
      assert (d + tail)[1..] == d[1..] + tail;
      DigitRunOfNumeral(d[1..], tail);
    }
  }

  lemma ParseIntMinus(x: string)
    ensures ParseInt("-" + x) == match ParseNat(x) case None => None case Some((n, rest)) => Some((-(n as int), rest))
  {
    assert ("-" + x)[1..] == x;
  }

  lemma ParseIntDigit(x: string)
    requires |x| > 0 && IsDigit(x[0])
    ensures ParseInt(x) == match ParseNat(x) case None => None case Some((n, rest)) => Some((n as int, rest))
  {
  }

  lemma NegativeRoundTrip(n: int, tail: string)
    requires n < 0 && (tail == [] || !IsDigit(tail[0]))
    ensures ParseInt("-" + NatToString(-n) + tail) == Some((n, tail))
  {
    var d := NatToString(-n);
    AppendAssoc("-", d, tail);
    NatRoundTrip(-n, tail);
    ParseIntMinus(d + tail);
  }

  lemma NonNegativeRoundTrip(n: nat, tail: string)
    requires tail == [] || !IsDigit(tail[0])
    ensures ParseInt(NatToString(n) + tail) == Some((n, tail))
  {
    var d := NatToString(n);
    assert (d + tail)[0] == d[0];
    NatRoundTrip(n, tail);
    ParseIntDigit(d + tail);
  }

  lemma IntRoundTrip(n: int, tail: string)
    requires tail == [] || !IsDigit(tail[0])
    ensures ParseInt(IntToString(n) + tail) == Some((n, tail))
  {
    if n < 0 {
      NegativeRoundTrip(n, tail);
    } else {
      NonNegativeRoundTrip(n, tail);
    }
  }

  /** What may follow a value in serialised output: a comma or the closing brace. */
  predicate AfterValue(tail: string) {
    |tail| > 0 && (tail[0] == ',' || tail[0] == '}')
  }

  lemma ValueRoundTrip(v: Value, tail: string)
    requires AfterValue(tail)
    ensures ParseValue(SerializeValue(v) + tail) == Some((v, tail))
  {
    match v
    case Str(s) =>
      QuoteStringRoundTrip(s, tail);
    case Num(n) =>
      IntRoundTrip(n, tail);
      assert IntToString(n)[0] == '-' || IsDigit(IntToString(n)[0]);
  }

  /** A written value starts with a quote, a minus sign or a digit, never with whitespace. */
  lemma SerializeValueStart(v: Value)
    ensures |SerializeValue(v)| > 0 && !IsWhitespace(SerializeValue(v)[0])
  {
    match v
    case Str(_) =>
    case Num(n) =>
      if n < 0 {
        assert SerializeValue(v)[0] == '-';
      } else {
        assert IsDigit(NatToString(n)[0]);
      }
  }

  lemma ParseMemberOf(s: string, key: string, v: string, value: Value, tail: string)
    requires |s| > 0 && s[0] == '"' && ParseStringBody(s[1..]) == Some((key, ":" + v))
    requires |v| > 0 && !IsWhitespace(v[0]) && ParseValue(v) == Some((value, tail))
    ensures ParseMember(s) == Some(((key, value), tail))
  {
    assert (":" + v)[1..] == v;
  }

  lemma MemberRoundTrip(m: Member, tail: string)
    requires AfterValue(tail)
    ensures ParseMember(SerializeMember(m) + tail) == Some((m, tail))
  {
    var q := QuoteString(m.0);
    var v := SerializeValue(m.1) + tail;
    var s := SerializeMember(m) + tail;
    AppendAssoc3(q, ":", SerializeValue(m.1), tail);
    assert s == q + (":" + v);
    QuoteStringRoundTrip(m.0, ":" + v);
    ValueRoundTrip(m.1, tail);
    SerializeValueStart(m.1);
    assert v[0] == SerializeValue(m.1)[0];
    ParseMemberOf(s, m.0, v, m.1, tail);
  }

  /** Proof helpers with no counterpart in the code: concatenation regrouped to the
      right, stated once so the round-trip proofs stay small. */
  lemma AppendAssoc(a: string, b: string, c: string)
    ensures a + b + c == a + (b + c)
  {
  }

  lemma AppendAssoc3(a: string, b: string, c: string, d: string)
    ensures a + b + c + d == a + (b + (c + d))
  {
  }

  lemma AppendAssoc4(a: string, b: string, c: string, d: string, e: string)
    ensures a + b + c + d + e == a + (b + (c + d + e))
  {
  }

  lemma ParseMembersLast(s: string, m: Member, tail: string)
    requires ParseMember(s) == Some((m, "}" + tail))
    ensures ParseMembers(s) == Some(([m], tail))
  {
    assert ("}" + tail)[1..] == tail;
  }

  lemma ParseMembersCons(s: string, m: Member, rest: string, ms: seq<Member>, all: seq<Member>, tail: string)
    requires ParseMember(s) == Some((m, "," + rest))
    requires |rest| > 0 && !IsWhitespace(rest[0]) && ParseMembers(rest) == Some((ms, tail))
    requires all == [m] + ms
    ensures ParseMembers(s) == Some((all, tail))
  {
    assert ("," + rest)[1..] == rest;
  }

  lemma {:induction false} MembersRoundTrip(ms: seq<Member>, tail: string)
    requires |ms| >= 1
    ensures ParseMembers(SerializeMembers(ms) + "}" + tail) == Some((ms, tail))
    decreases |ms|
  {
    if |ms| == 1 {
      AppendAssoc(SerializeMember(ms[0]), "}", tail);
      MemberRoundTrip(ms[0], "}" + tail);
      ParseMembersLast(SerializeMember(ms[0]) + ("}" + tail), ms[0], tail);
      assert [ms[0]] == ms;
    } else {
      var rest := SerializeMembers(ms[1..]) + "}" + tail;
      MembersRoundTrip(ms[1..], tail);
      MembersStep(ms, rest, tail);
    }
  }

  lemma MembersStep(ms: seq<Member>, rest: string, tail: string)
    requires |ms| >= 2
    requires rest == SerializeMembers(ms[1..]) + "}" + tail
    requires ParseMembers(rest) == Some((ms[1..], tail))
    ensures ParseMembers(SerializeMembers(ms) + "}" + tail) == Some((ms, tail))
  {
    var s := SerializeMembers(ms) + "}" + tail;
    AppendAssoc4(SerializeMember(ms[0]), ",", SerializeMembers(ms[1..]), "}", tail);
    assert s == SerializeMember(ms[0]) + ("," + rest);
    MemberRoundTrip(ms[0], "," + rest);
    SerializeMembersStart(ms[1..], "}" + tail);
    AppendAssoc(SerializeMembers(ms[1..]), "}", tail);
    assert rest[0] == '"';
    assert [ms[0]] + ms[1..] == ms;
    ParseMembersCons(s, ms[0], rest, ms[1..], ms, tail);
  }

  /** A non-empty member list is written starting with the first key's quote. */
  lemma SerializeMembersStart(ms: seq<Member>, tail: string)
    requires |ms| >= 1
    ensures |SerializeMembers(ms) + tail| > 0 && (SerializeMembers(ms) + tail)[0] == '"'
  {
    SerializeMemberStartsWithQuote(ms[0]);
    if |ms| > 1 {
      AppendAssoc3(SerializeMember(ms[0]), ",", SerializeMembers(ms[1..]), tail);
    } else {
      assert SerializeMembers(ms) == SerializeMember(ms[0]);
    }
  }

  lemma SerializeMemberStartsWithQuote(m: Member)
    ensures |SerializeMember(m)| > 0 && SerializeMember(m)[0] == '"'
  {
  }

  lemma ParseOfObject(text: string, body: string, ms: seq<Member>)
    requires |text| > 0 && text[0] == '{' && text[1..] == body && ParseObject(body) == Some((ms, ""))
    ensures Parse(text) == Some(ToObject(ms))
  {
  }

  lemma ParseObjectOfMembers(body: string, ms: seq<Member>)
    requires |body| > 0 && body[0] == '"' && ParseMembers(body) == Some((ms, ""))
    ensures ParseObject(body) == Some((ms, ""))
  {
  }

  /** Reading back what `Stringify` wrote yields the object its members build. */
  lemma StringifyRoundTrip(ms: seq<Member>)
    ensures Parse(Stringify(ms)) == Some(ToObject(ms))
  {
    var body := SerializeMembers(ms) + "}";
    var text := Stringify(ms);
    AppendAssoc("{", SerializeMembers(ms), "}");
    assert text == "{" + body;
    assert text[1..] == body;
    if |ms| == 0 {
      assert body == "}";
      assert ParseObject(body) == Some(([], ""));
    } else {
      SerializeMembersStart(ms, "}");
      assert body + "" == body;
      MembersRoundTrip(ms, "");
      ParseObjectOfMembers(body, ms);
    }
    ParseOfObject(text, body, ms);
  }

  /** With distinct keys, each key maps to the value written with it. */
  lemma {:induction false} ToObjectLookup(ms: seq<Member>, i: nat)
    requires i < |ms|
    requires forall j :: i < j < |ms| ==> ms[j].0 != ms[i].0
    ensures ms[i].0 in ToObject(ms) && ToObject(ms)[ms[i].0] == ms[i].1
    decreases |ms|
  {
    if i < |ms| - 1 {
      var init := ms[..|ms| - 1];
      assert init[i] == ms[i];
      ToObjectLookup(init, i);
    }
  }
}
