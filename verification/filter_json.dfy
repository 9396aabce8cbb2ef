/** The `filters` request parameter: `JSON.stringify` of a flat object whose
    keys are column names and whose values are strings. The encoder writes
    the compact form (no whitespace) with the escapes `JSON.stringify` uses;
    the decoder reads that form back and is the encoder's partner. */
module FilterJson {
  import opened Wrappers

  /** The members of a flat object, in the order `JSON.stringify` visits
      them (the object's own enumeration order). */
  type FlatObject = seq<(string, string)>

  /** No key occurs twice, as in any JavaScript object. */
  predicate DistinctKeys(members: FlatObject)
  {
    forall i, j :: 0 <= i < j < |members| ==> members[i].0 != members[j].0
  }

  /** The flat objects a JavaScript term can be. */
  type JsObject = members: FlatObject | DistinctKeys(members) witness []

  /** Lower-case hexadecimal digit for `n`. */
  function HexDigit(n: nat): (c: char)
    requires n < 16
    ensures HexValue(c) == Some(n)
  {
    if n < 10 then ('0' as int + n) as char else ('a' as int + n - 10) as char
  }

  /** Value of a hexadecimal digit of either case. */
  function HexValue(c: char): (r: Option<nat>)
    ensures r.Some? ==> r.value < 16
  {
    if '0' <= c <= '9' then Some(c as int - '0' as int)
    else if 'a' <= c <= 'f' then Some(c as int - 'a' as int + 10)
    else if 'A' <= c <= 'F' then Some(c as int - 'A' as int + 10)
    else None
  }

  /** A character JSON forbids inside a string literal unless escaped. */
  predicate MustEscape(c: char)
  {
    c == '"' || c == '\\' || c as int < 0x20
  }

  /** How `JSON.stringify` writes one character of a string: quote and
      backslash behind a backslash, the five control characters with a short
      escape by letter, the other control characters as `\u00xx`, every
      other character as itself. */
  function EscapeChar(c: char): (r: string)
    ensures |r| > 0 && r[0] != '"'
    ensures MustEscape(c) <==> r[0] == '\\'
    ensures !MustEscape(c) ==> r == [c]
    ensures forall i :: 0 <= i < |r| ==> r[i] as int >= 0x20
  {
    if c == '"' then "\\\""
    else if c == '\\' then "\\\\"
    else if c as int == 0x08 then "\\b"
    else if c as int == 0x0C then "\\f"
    else if c == '\n' then "\\n"
    else if c == '\r' then "\\r"
    else if c == '\t' then "\\t"
    else if c as int < 0x20 then "\\u00" + [HexDigit(c as int / 16), HexDigit(c as int % 16)]
    else [c]
  }

  /** The characters of `s`, each escaped, without the enclosing quotes. */
  function EscapeBody(s: string): (body: string)
  {
    if |s| == 0 then "" else EscapeChar(s[0]) + EscapeBody(s[1..])
  }

  /** A string with no character that needs escaping is written as itself. */
  lemma {:induction false} PlainBody(s: string)
    requires forall i :: 0 <= i < |s| ==> !MustEscape(s[i])
    ensures EscapeBody(s) == s
    decreases |s|
  {
    if |s| > 0 {
      PlainBody(s[1..]);
      assert [s[0]] + s[1..] == s;
    }
  }

  /** A string with no character that needs escaping is written as itself
      between quotes. */
  lemma PlainString(s: string)
    requires forall i :: 0 <= i < |s| ==> !MustEscape(s[i])
    ensures EncodeString(s) == "\"" + s + "\""
  {
    PlainBody(s);
  }

  /** A member whose key and value need no escaping is written as the two
      strings in quotes around a colon. */
  lemma PlainMember(key: string, value: string)
    requires forall i :: 0 <= i < |key| ==> !MustEscape(key[i])
    requires forall i :: 0 <= i < |value| ==> !MustEscape(value[i])
    ensures EncodeMember((key, value)) == "\"" + key + "\":\"" + value + "\""
  {
    PlainString(key);
    PlainString(value);
  }

  /** `JSON.stringify` of a string value. */
  function EncodeString(s: string): (text: string)
  {
    "\"" + EscapeBody(s) + "\""
  }

  /** One member of an object: `"key":"value"`. */
  function EncodeMember(member: (string, string)): (text: string)
  {
    EncodeString(member.0) + ":" + EncodeString(member.1)
  }

  /** The members separated by commas, in order. */
  function EncodeMembers(members: FlatObject): (text: string)
  {
    if |members| == 0 then ""
    else if |members| == 1 then EncodeMember(members[0])
    else EncodeMember(members[0]) + "," + EncodeMembers(members[1..])
  }

  /** `JSON.stringify` of a flat object of strings: a brace-delimited text
      that is `{}` exactly for an object without members. */
  function EncodeObject(members: FlatObject): (text: string)
    ensures |text| >= 2 && text[0] == '{' && text[|text| - 1] == '}'
    ensures members == [] <==> text == "{}"
  {
    "{" + EncodeMembers(members) + "}"
  }

  /** Value of four hexadecimal digits. */
  function Hex4(h: string): (r: Option<nat>)
    requires |h| == 4
    ensures r.Some? ==> r.value < 0x1_0000
  {
    match (HexValue(h[0]), HexValue(h[1]), HexValue(h[2]), HexValue(h[3]))
    case (Some(a), Some(b), Some(c), Some(d)) => Some(((a * 16 + b) * 16 + c) * 16 + d)
    case _ => None
  }

  /** Reads the escape sequence that follows a backslash; `t` starts just
      after the backslash. A `\u` escape naming a surrogate code unit is
      refused: it does not stand for a character on its own. */
  function Unescape(t: string): (r: Option<(char, string)>)
    ensures r.Some? ==> |r.value.1| < |t|
  {
    if |t| == 0 then None
    else if t[0] == '"' then Some(('"', t[1..]))
    else if t[0] == '\\' then Some(('\\', t[1..]))
    else if t[0] == '/' then Some(('/', t[1..]))
    else if t[0] == 'b' then Some((0x08 as char, t[1..]))
    else if t[0] == 'f' then Some((0x0C as char, t[1..]))
    else if t[0] == 'n' then Some(('\n', t[1..]))
    else if t[0] == 'r' then Some(('\r', t[1..]))
    else if t[0] == 't' then Some(('\t', t[1..]))
    else if t[0] == 'u' && |t| >= 5 then
      match Hex4(t[1..5])
      case None => None
      case Some(v) =>
        if 0xD800 <= v < 0xE000 then None else Some((v as char, t[5..]))
    else None
  }

  /** Reads one character of a string literal: an escape sequence or a
      character that needs no escape. */
  function DecodeChar(t: string): (r: Option<(char, string)>)
    ensures r.Some? ==> |r.value.1| < |t|
  {
    if |t| == 0 || t[0] == '"' || t[0] as int < 0x20 then None
    else if t[0] == '\\' then Unescape(t[1..])
    else Some((t[0], t[1..]))
  }

  /** Reads the characters of a string literal up to and including its
      closing quote; yields the characters and what follows the quote. */
  function DecodeChars(t: string): (r: Option<(string, string)>)
    ensures r.Some? ==> |r.value.1| < |t|
    decreases |t|
  {
    if |t| == 0 then None
    else if t[0] == '"' then Some(("", t[1..]))
    else
      match DecodeChar(t)
      case None => None
      case Some((c, t')) =>
        match DecodeChars(t')
        case None => None
        case Some((s, rest)) => Some(([c] + s, rest))
  }

  /** Reads a string literal at the start of `t`. */
  function DecodeString(t: string): (r: Option<(string, string)>)
    ensures r.Some? ==> |r.value.1| < |t|
  {
    if |t| > 0 && t[0] == '"' then DecodeChars(t[1..]) else None
  }

  /** Reads one `"key":"value"` member. */
  function DecodeMember(t: string): (r: Option<((string, string), string)>)
    ensures r.Some? ==> |r.value.1| < |t|
  {
    match DecodeString(t)
    case None => None
    case Some((key, t1)) =>
      if |t1| == 0 || t1[0] != ':' then None
      else
        match DecodeString(t1[1..])
        case None => None
        case Some((value, t2)) => Some(((key, value), t2))
  }

  /** Reads members separated by commas, up to and including the closing
      brace; yields the members and what follows the brace. */
  function DecodeMembers(t: string): (r: Option<(FlatObject, string)>)
    ensures r.Some? ==> |r.value.1| < |t|
    decreases |t|
  {
    match DecodeMember(t)
    case None => None
    case Some((member, t2)) =>
      if |t2| == 0 then None
      else if t2[0] == '}' then Some(([member], t2[1..]))
      else if t2[0] == ',' then
        match DecodeMembers(t2[1..])
        case None => None
        case Some((more, rest)) => Some(([member] + more, rest))
      else None
  }

  /** Reads a whole text as one flat object of strings. */
  function DecodeObject(t: string): (r: Option<FlatObject>)
  {
    if |t| < 2 || t[0] != '{' then None
    else if t[1] == '}' then (if |t| == 2 then Some([]) else None)
    else
      match DecodeMembers(t[1..])
      case Some((members, rest)) => if |rest| == 0 then Some(members) else None
      case None => None
  }

  /** One escaped character reads back as that character, and reading stops
      exactly where the escape ends. */
  lemma EscapeCharRoundTrip(c: char, t: string)
    ensures DecodeChar(EscapeChar(c) + t) == Some((c, t))
  {
    var e := EscapeChar(c);
    var u := e + t;
    assert u[1..] == e[1..] + t;
    if |e| == 2 {
      assert u[2..] == t;
    } else if |e| == 6 {
      var n := c as int;
      assert u[1..][1..5] == e[2..];
      assert e[2..] == ['0', '0', HexDigit(n / 16), HexDigit(n % 16)];
      assert u[1..][5..] == t;
    }
  }

  /** The escaped body followed by the closing quote reads back as the
      original characters, leaving exactly what follows the quote. */
  lemma {:induction false} EscapeBodyRoundTrip(s: string, rest: string)
    ensures DecodeChars(EscapeBody(s) + "\"" + rest) == Some((s, rest))
    decreases |s|
  {
    var t := EscapeBody(s) + "\"" + rest;
    if |s| == 0 {
      assert t == "\"" + rest;
      assert t[1..] == rest;
    } else {
      var tail := EscapeBody(s[1..]) + "\"" + rest;
      assert t == EscapeChar(s[0]) + tail;
      EscapeCharRoundTrip(s[0], tail);
      EscapeBodyRoundTrip(s[1..], rest);
      assert [s[0]] + s[1..] == s;
    }
  }

  /** Every encoded string reads back as itself. */
  lemma StringRoundTrip(s: string, rest: string)
    ensures DecodeString(EncodeString(s) + rest) == Some((s, rest))
  {
    var t := EncodeString(s) + rest;
    assert t[1..] == EscapeBody(s) + "\"" + rest;
    EscapeBodyRoundTrip(s, rest);
  }

  /** A key string, a colon and a value string make one member. */
  lemma MemberStep(t: string, key: string, t1: string, value: string, t2: string)
    requires DecodeString(t) == Some((key, t1))
    requires |t1| > 0 && t1[0] == ':'
    requires DecodeString(t1[1..]) == Some((value, t2))
    ensures DecodeMember(t) == Some(((key, value), t2))
  {
  }

  /** One encoded member reads back as its key and value, leaving exactly
      what follows it. */
  lemma MemberRoundTrip(member: (string, string), after: string)
    ensures DecodeMember(EncodeMember(member) + after) == Some((member, after))
  {
    var t1 := ":" + EncodeString(member.1) + after;
    assert EncodeMember(member) + after == EncodeString(member.0) + t1;
    StringRoundTrip(member.0, t1);
    assert t1[1..] == EncodeString(member.1) + after;
    StringRoundTrip(member.1, after);
    MemberStep(EncodeMember(member) + after, member.0, t1, member.1, after);
  }

  /** A member followed by the closing brace ends the member list. */
  lemma LastMemberStep(t: string, member: (string, string), rest: string)
    requires DecodeMember(t) == Some((member, "}" + rest))
    ensures DecodeMembers(t) == Some(([member], rest))
  {
    assert ("}" + rest)[1..] == rest;
  }

  /** A member followed by a comma is prepended to the members after it. */
  lemma NextMemberStep(t: string, member: (string, string), tail: string, more: FlatObject, rest: string)
    requires DecodeMember(t) == Some((member, "," + tail))
    requires DecodeMembers(tail) == Some((more, rest))
    ensures DecodeMembers(t) == Some(([member] + more, rest))
  {
    assert ("," + tail)[1..] == tail;
  }

  /** A single encoded member followed by the closing brace reads back as
      that member alone. */
  lemma SingleMemberRoundTrip(member: (string, string), rest: string)
    ensures DecodeMembers(EncodeMembers([member]) + "}" + rest) == Some(([member], rest))
  {
    var t := EncodeMembers([member]) + "}" + rest;
    assert t == EncodeMember(member) + ("}" + rest);
    MemberRoundTrip(member, "}" + rest);
    LastMemberStep(t, member, rest);
  }

  /** Regrouping a concatenation of five strings to the right. */
  lemma Regroup(a: string, b: string, c: string, d: string, e: string)
    ensures a + b + c + d + e == a + (b + (c + d + e))
  {
  }

  /** Several encoded members: the first one, a comma, then the others. */
  lemma MembersText(members: FlatObject, rest: string)
    requires |members| > 1
    ensures EncodeMembers(members) + "}" + rest
      == EncodeMember(members[0]) + ("," + (EncodeMembers(members[1..]) + "}" + rest))
  {
    var first, others := EncodeMember(members[0]), EncodeMembers(members[1..]);
    assert EncodeMembers(members) == first + "," + others;
    Regroup(first, ",", others, "}", rest);
  }

  /** The encoded members followed by the closing brace read back as the
      same members in the same order. */
  lemma {:induction false} MembersRoundTrip(members: FlatObject, rest: string)
    requires |members| > 0
    ensures DecodeMembers(EncodeMembers(members) + "}" + rest) == Some((members, rest))
    decreases |members|
  {
    if |members| == 1 {
      SingleMemberRoundTrip(members[0], rest);
      assert [members[0]] == members;
    } else {
      var t := EncodeMembers(members) + "}" + rest;
      var tail := EncodeMembers(members[1..]) + "}" + rest;
      MembersText(members, rest);
      MemberRoundTrip(members[0], "," + tail);
      MembersRoundTrip(members[1..], rest);
      NextMemberStep(t, members[0], tail, members[1..], rest);
      assert [members[0]] + members[1..] == members;
    }
  }

  /** `filters` round trip: decoding the JSON text of a flat object gives
      back exactly its members, in order. */
  lemma ObjectRoundTrip(members: FlatObject)
    ensures DecodeObject(EncodeObject(members)) == Some(members)
  {
    if |members| > 0 {
      var body := EncodeMembers(members) + "}";
      assert EncodeObject(members) == "{" + body;
      assert body + "" == body;
      MembersStartWithQuote(members);
      MembersRoundTrip(members, "");
      ObjectStep(body, members);
    }
  }

  /** The encoded members of a non-empty object start with the quote that
      opens the first key. */
  lemma MembersStartWithQuote(members: FlatObject)
    requires |members| > 0
    ensures |EncodeMembers(members)| > 0 && EncodeMembers(members)[0] == '"'
  {
    var first := EncodeMember(members[0]);
    assert first[0] == '"';
    if |members| > 1 {
      assert EncodeMembers(members) == first + "," + EncodeMembers(members[1..]);
    }
  }

  /** An opening brace followed by members and nothing after the closing
      brace reads as an object. */
  lemma ObjectStep(body: string, members: FlatObject)
    requires |body| > 0 && body[0] != '}'
    requires DecodeMembers(body) == Some((members, ""))
    ensures DecodeObject("{" + body) == Some(members)
  {
    assert ("{" + body)[1..] == body;
  }

  /** Two objects with the same JSON text have the same members in the same
      order. */
  lemma EncodeObjectInjective(a: FlatObject, b: FlatObject)
    requires EncodeObject(a) == EncodeObject(b)
    ensures a == b
  {
    ObjectRoundTrip(a);
    ObjectRoundTrip(b);
  }
}
