/**
 * JSON text in the compact form JSON.stringify writes (no insignificant whitespace) and the
 * JSON.parse that reads it back. The app stores the signed-in user as such text, sends every
 * request body as such text and reads every response body from it.
 */
module Json {
  import opened Wrappers

  /** A JSON value. Numbers are integers: the app exchanges no fractions. */
  datatype Json =
    | JNull
    | JBool(b: bool)
    | JNum(n: int)
    | JStr(s: string)
    | JArr(items: seq<Json>)
    | JObj(fields: seq<Member>)

  /** One key/value member of an object, in the order the object lists them. */
  datatype Member = Member(key: string, value: Json)

  // ---------------------------------------------------------------------------------------------
  // Decimal integers (Number.prototype.toString for integral values)

  predicate IsDigit(c: char) { '0' <= c <= '9' }

  predicate AllDigits(s: string) { forall i :: 0 <= i < |s| ==> IsDigit(s[i]) }

  function DigitChar(d: nat): (c: char)
    requires d < 10
    ensures IsDigit(c)
  {
    (('0' as int) + d) as char
  }

  function DigitValue(c: char): (d: nat)
    requires IsDigit(c)
    ensures d < 10 && DigitChar(d) == c
  {
    (c as int) - ('0' as int)
  }

  /** Decimal text of a non-negative integer, most significant digit first. */
  function NatToString(n: nat): (s: string)
    ensures |s| > 0 && AllDigits(s)
    decreases n
  {
    if n < 10 then [DigitChar(n)] else NatToString(n / 10) + [DigitChar(n % 10)]
  }

  /** Decimal text of an integer, with a leading '-' when negative. */
  function IntToString(n: int): string
  {
    if n < 0 then "-" + NatToString(-n) else NatToString(n)
  }

  /** The number a run of decimal digits denotes. */
  function DigitsValue(s: string): nat
    requires AllDigits(s)
  {
    if |s| == 0 then 0 else DigitsValue(s[..|s| - 1]) * 10 + DigitValue(s[|s| - 1])
  }

  lemma {:induction false} DigitsValueOfNatToString(n: nat)
    ensures DigitsValue(NatToString(n)) == n
    decreases n
  {
    if n >= 10 {
      var s := NatToString(n);
      assert s[..|s| - 1] == NatToString(n / 10);
      DigitsValueOfNatToString(n / 10);
    }
  }

  /** The text has a leading zero only for zero itself. */
  lemma {:induction false} NatToStringLeadingZero(n: nat)
    ensures NatToString(n)[0] == '0' <==> n == 0
    decreases n
  {
    if n >= 10 {
      NatToStringLeadingZero(n / 10);
      assert NatToString(n)[0] == NatToString(n / 10)[0];
    }
  }

  /** Different numbers have different decimal texts. */
  lemma NatToStringInjective(m: nat, n: nat)
    requires NatToString(m) == NatToString(n)
    ensures m == n
  {
    DigitsValueOfNatToString(m);
    DigitsValueOfNatToString(n);
  }

  /** Length of the run of digits that starts the text. */
  function DigitRun(s: string): (k: nat)
    ensures k <= |s| && AllDigits(s[..k])
    ensures k == |s| || !IsDigit(s[k])
  {
    if |s| == 0 || !IsDigit(s[0]) then 0
    else
      var k := 1 + DigitRun(s[1..]);
      assert s[..k] == [s[0]] + s[1..][..k - 1];
      k
  }

  lemma {:induction false} DigitRunOf(d: string, rest: string)
    requires AllDigits(d)
    requires rest == [] || !IsDigit(rest[0])
    ensures DigitRun(d + rest) == |d|
    decreases |d|
  {
    if |d| == 0 {
      assert d + rest == rest;
    } else {
      assert (d + rest)[1..] == d[1..] + rest;
      DigitRunOf(d[1..], rest);
    }
  }

  /**
   * The digits of a JSON number: no leading zero before further digits. A fraction or exponent
   * is outside the integers this model carries, and the text is refused.
   */
  function ParseNat(s: string): (r: Option<(nat, string)>)
    ensures r.Some? ==> |r.value.1| < |s|
  {
    var k := DigitRun(s);
    if k == 0 || (s[0] == '0' && k > 1) then None
    else if k < |s| && (s[k] == '.' || s[k] == 'e' || s[k] == 'E') then None
    else Some((DigitsValue(s[..k]), s[k..]))
  }

  /** A character that may follow a complete value inside compact JSON text. */
  predicate EndsValue(rest: string)
  {
    rest == [] || rest[0] == ',' || rest[0] == ']' || rest[0] == '}'
  }

  lemma ParseNatOfNatToString(n: nat, rest: string)
    requires EndsValue(rest)
    ensures ParseNat(NatToString(n) + rest) == Some((n, rest))
  {
    var d := NatToString(n);
    var s := d + rest;
    DigitRunOf(d, rest);
    NatToStringLeadingZero(n);
    assert s[..|d|] == d;
    assert s[|d|..] == rest;
    DigitsValueOfNatToString(n);
  }

  // ---------------------------------------------------------------------------------------------
  // Strings

  function HexChar(d: nat): char
    requires d < 16
  {
    if d < 10 then DigitChar(d) else (('a' as int) + d - 10) as char
  }

  function HexValue(c: char): (r: Option<nat>)
    ensures r.Some? ==> r.value < 16
  {
    if '0' <= c <= '9' then Some((c as int) - ('0' as int))
    else if 'a' <= c <= 'f' then Some((c as int) - ('a' as int) + 10)
    else if 'A' <= c <= 'F' then Some((c as int) - ('A' as int) + 10)
    else None
  }

  lemma HexValueOfHexChar(d: nat)
    requires d < 16
    ensures HexValue(HexChar(d)) == Some(d)
  {
  }

  /** The code unit written as four hexadecimal digits after \u. */
  function Hex4(s: string): (r: Option<nat>)
    requires |s| == 4
    ensures r.Some? ==> r.value < 0x1_0000
  {
    match (HexValue(s[0]), HexValue(s[1]), HexValue(s[2]), HexValue(s[3]))
    case (Some(a), Some(b), Some(c), Some(d)) => Some(((a * 16 + b) * 16 + c) * 16 + d)
    case _ => None
  }

  /**
   * How JSON.stringify writes one character inside a string literal: the two-character escapes
   * for quote, backslash, backspace, tab, newline, form feed and carriage return, \u00xx (lower-case
   * hexadecimal) for the other control characters, and every other character as itself.
   */
  function EscapeChar(c: char): string
  {
    if c == '"' then "\\\""
    else if c == '\\' then "\\\\"
    else if c as int == 0x08 then "\\b"
    else if c == '\t' then "\\t"
    else if c == '\n' then "\\n"
    else if c as int == 0x0C then "\\f"
    else if c == '\r' then "\\r"
    else if (c as int) < 0x20 then "\\u00" + [HexChar((c as int) / 16), HexChar((c as int) % 16)]
    else [c]
  }

  function Escape(s: string): string
  {
    if s == [] then [] else EscapeChar(s[0]) + Escape(s[1..])
  }

  function Quote(s: string): string
  {
    "\"" + Escape(s) + "\""
  }

  /** The character a two-character escape \e stands for. */
  function UnescapeChar(e: char): Option<char>
  {
    if e == '"' then Some('"')
    else if e == '\\' then Some('\\')
    else if e == '/' then Some('/')
    else if e == 'b' then Some(0x08 as char)
    else if e == 'f' then Some(0x0C as char)
    else if e == 'n' then Some('\n')
    else if e == 'r' then Some('\r')
    else if e == 't' then Some('\t')
    else None
  }

  function PrependChar(c: char, r: Option<(string, string)>): Option<(string, string)>
  {
    match r
    case None => None
    case Some((t, rest)) => Some(([c] + t, rest))
  }

  /**
   * The characters of a string literal after its opening quote, through the closing quote:
   * the decoded string and the text after the literal. A raw control character, an unknown
   * escape or a \u escape naming half of a surrogate pair is refused.
   */
  function ParseChars(s: string): (r: Option<(string, string)>)
    ensures r.Some? ==> |r.value.1| < |s|
    decreases |s|
  {
    if |s| == 0 then None
    else if s[0] == '"' then Some(("", s[1..]))
    else if s[0] == '\\' then
      if |s| < 2 then None
      else if s[1] == 'u' then
        if |s| < 6 then None
        else
          match Hex4(s[2..6])
          case None => None
          case Some(code) =>
            if 0xD800 <= code < 0xE000 then None
            else PrependChar(code as char, ParseChars(s[6..]))
      else
        match UnescapeChar(s[1])
        case None => None
        case Some(c) => PrependChar(c, ParseChars(s[2..]))
    else if (s[0] as int) < 0x20 then None
    else PrependChar(s[0], ParseChars(s[1..]))
  }

  lemma EscapeCharThenParse(c: char, t: string)
    ensures ParseChars(EscapeChar(c) + t) == PrependChar(c, ParseChars(t))
  {
    var s := EscapeChar(c) + t;
    if c == '"' || c == '\\' || c as int == 0x08 || c == '\t' || c == '\n' || c as int == 0x0C || c == '\r' {
      assert s[0] == '\\' && s[2..] == t;
    } else if (c as int) < 0x20 {
      var hi, lo := (c as int) / 16, (c as int) % 16;
      assert s[0] == '\\' && s[1] == 'u';
      assert s[2..6] == ['0', '0', HexChar(hi), HexChar(lo)];
      HexValueOfHexChar(hi);
      HexValueOfHexChar(lo);
      assert Hex4(s[2..6]) == Some(c as int);
      assert s[6..] == t;
    } else {
      assert s[0] == c && s[1..] == t;
    }
  }

  lemma {:induction false} ParseCharsOfEscape(s: string, rest: string)
    ensures ParseChars(Escape(s) + "\"" + rest) == Some((s, rest))
    decreases |s|
  {
    if s == [] {
      assert Escape(s) + "\"" + rest == "\"" + rest;
    } else {
      var t := Escape(s[1..]) + "\"" + rest;
      assert Escape(s) + "\"" + rest == EscapeChar(s[0]) + t;
      ParseCharsOfEscape(s[1..], rest);
      EscapeCharThenParse(s[0], t);
      assert [s[0]] + s[1..] == s;
    }
  }

  // ---------------------------------------------------------------------------------------------
  // Values

  /** JSON.stringify: compact text, array items and object members in their order. */
  function Serialize(v: Json): string
    decreases v
  {
    match v
    case JNull => "null"
    case JBool(b) => if b then "true" else "false"
    case JNum(n) => IntToString(n)
    case JStr(s) => Quote(s)
    case JArr(items) => "[" + SerializeItems(items) + "]"
    case JObj(fields) => "{" + SerializeMembers(fields) + "}"
  }

  function SerializeItems(items: seq<Json>): string
    decreases items
  {
    if |items| == 0 then ""
    else if |items| == 1 then Serialize(items[0])
    else Serialize(items[0]) + "," + SerializeItems(items[1..])
  }

  function SerializeMembers(fields: seq<Member>): string
    decreases fields
  {
    if |fields| == 0 then ""
    else if |fields| == 1 then MemberText(fields[0])
    else MemberText(fields[0]) + "," + SerializeMembers(fields[1..])
  }

  function MemberText(m: Member): string
    decreases m
  {
    Quote(m.key) + ":" + Serialize(m.value)
  }

  function Literal(s: string, word: string, v: Json): (r: Option<(Json, string)>)
    requires |word| > 0
    ensures r.Some? ==> |r.value.1| < |s|
  {
    if |word| <= |s| && s[..|word|] == word then Some((v, s[|word|..])) else None
  }

  /** One value at the start of the text, and the text after it; its first character picks the kind. */
  function ParseValue(s: string): (r: Option<(Json, string)>)
    ensures r.Some? ==> |r.value.1| < |s|
    decreases |s|, 3
  {
    if |s| == 0 then None
    else if s[0] == 'n' then Literal(s, "null", JNull)
    else if s[0] == 't' then Literal(s, "true", JBool(true))
    else if s[0] == 'f' then Literal(s, "false", JBool(false))
    else if s[0] == '"' then ParseString(s[1..])
    else if s[0] == '[' then ParseArray(s)
    else if s[0] == '{' then ParseObject(s)
    else if s[0] == '-' || IsDigit(s[0]) then ParseNumber(s)
    else None
  }

  /** A string value, from just after its opening quote. */
  function ParseString(s: string): (r: Option<(Json, string)>)
    ensures r.Some? ==> |r.value.1| < |s|
  {
    match ParseChars(s)
    case None => None
    case Some((str, rest)) => Some((JStr(str), rest))
  }

  /** A number: an optional minus sign and the digits of an integer. */
  function ParseNumber(s: string): (r: Option<(Json, string)>)
    requires |s| > 0
    ensures r.Some? ==> |r.value.1| < |s|
  {
    if s[0] == '-' then
      match ParseNat(s[1..])
      case None => None
      case Some((n, rest)) => Some((JNum(-(n as int)), rest))
    else
      match ParseNat(s)
      case None => None
      case Some((n, rest)) => Some((JNum(n), rest))
  }

  /** An array, from its '[': empty, or items through the closing ']'. */
  function ParseArray(s: string): (r: Option<(Json, string)>)
    requires |s| > 0
    ensures r.Some? ==> |r.value.1| < |s|
    decreases |s|, 2
  {
    if |s| >= 2 && s[1] == ']' then Some((JArr([]), s[2..]))
    else AsArray(ParseItems(s[1..]))
  }

  /** The array made of parsed items, if they parsed. */
  function AsArray(r: Option<(seq<Json>, string)>): Option<(Json, string)>
  {
    match r
    case None => None
    case Some((items, rest)) => Some((JArr(items), rest))
  }

  /** An object, from its '{': empty, or members through the closing '}'. */
  function ParseObject(s: string): (r: Option<(Json, string)>)
    requires |s| > 0
    ensures r.Some? ==> |r.value.1| < |s|
    decreases |s|, 2
  {
    if |s| >= 2 && s[1] == '}' then Some((JObj([]), s[2..]))
    else AsObject(ParseMembers(s[1..]))
  }

  /** The object made of parsed members, if they parsed. */
  function AsObject(r: Option<(seq<Member>, string)>): Option<(Json, string)>
  {
    match r
    case None => None
    case Some((fields, rest)) => Some((JObj(fields), rest))
  }

  /** The items of a non-empty array after its '[', through the closing ']'. */
  function ParseItems(s: string): (r: Option<(seq<Json>, string)>)
    ensures r.Some? ==> |r.value.1| < |s|
    decreases |s|, 4
  {
    match ParseValue(s)
    case None => None
    case Some((v, rest)) =>
      if |rest| == 0 then None
      else if rest[0] == ']' then Some(([v], rest[1..]))
      else if rest[0] == ',' then
        match ParseItems(rest[1..])
        case None => None
        case Some((vs, after)) => Some(([v] + vs, after))
      else None
  }

  /** The members of a non-empty object after its '{', through the closing '}'. */
  function ParseMembers(s: string): (r: Option<(seq<Member>, string)>)
    ensures r.Some? ==> |r.value.1| < |s|
    decreases |s|, 4
  {
    if |s| == 0 || s[0] != '"' then None
    else
      match ParseChars(s[1..])
      case None => None
      case Some((key, afterKey)) =>
        if |afterKey| == 0 || afterKey[0] != ':' then None
        else
          match ParseValue(afterKey[1..])
          case None => None
          case Some((v, rest)) =>
            if |rest| == 0 then None
            else if rest[0] == '}' then Some(([Member(key, v)], rest[1..]))
            else if rest[0] == ',' then
              match ParseMembers(rest[1..])
              case None => None
              case Some((more, after)) => Some(([Member(key, v)] + more, after))
            else None
  }

  /** JSON.parse: the one value the whole text denotes, or None where JSON.parse throws. */
  function Parse(text: string): Option<Json>
  {
    match ParseValue(text)
    case None => None
    case Some((v, rest)) => if rest == [] then Some(v) else None
  }

  // ---------------------------------------------------------------------------------------------
  // Round trip: JSON.parse(JSON.stringify(v)) gives v back

  lemma SerializeHead(v: Json)
    ensures |Serialize(v)| > 0
    ensures Serialize(v)[0] != ']' && Serialize(v)[0] != '}'
  {
    match v
    case JNum(n) =>
      if n < 0 {
        assert Serialize(v)[0] == '-';
      } else {
        assert Serialize(v)[0] == NatToString(n)[0];
      }
    case JArr(items) =>
    case JObj(fields) =>
    case _ =>
  }

  lemma ParseIntToString(n: int, rest: string)
    requires EndsValue(rest)
    ensures ParseValue(IntToString(n) + rest) == Some((JNum(n), rest))
  {
    var s := IntToString(n) + rest;
    if n < 0 {
      ParseNatOfNatToString(-n, rest);
      Regroup3("-", NatToString(-n), rest);
      Split("-", NatToString(-n) + rest);
    } else {
      ParseNatOfNatToString(n, rest);
      Split(NatToString(n), rest);
    }
    ParseValueOfNumberText(s);
  }

  lemma ParseValueOfNumberText(s: string)
    requires |s| > 0 && (s[0] == '-' || IsDigit(s[0]))
    ensures ParseValue(s) == ParseNumber(s)
  {
    assert s[0] != 'n' && s[0] != 't' && s[0] != 'f' && s[0] != '"' && s[0] != '[' && s[0] != '{';
  }

  lemma ParseScalarOfSerialize(v: Json, rest: string)
    requires !v.JArr? && !v.JObj?
    requires EndsValue(rest)
    ensures ParseValue(Serialize(v) + rest) == Some((v, rest))
  {
    match v
    case JNull => Split("null", rest);
    case JBool(b) => if b { Split("true", rest); } else { Split("false", rest); }
    case JNum(n) => ParseIntToString(n, rest);
    case JStr(str) =>
      SplitQuoted(Escape(str), rest);
      ParseCharsOfEscape(str, rest);
  }

  lemma ParseValueOfArrayText(s: string)
    requires |s| >= 2 && s[0] == '[' && s[1] != ']'
    ensures ParseValue(s) == AsArray(ParseItems(s[1..]))
  {
  }

  lemma ParseValueOfObjectText(s: string)
    requires |s| >= 2 && s[0] == '{' && s[1] != '}'
    ensures ParseValue(s) == AsObject(ParseMembers(s[1..]))
  {
  }

  lemma SerializeItemsHead(items: seq<Json>)
    requires |items| > 0
    ensures |SerializeItems(items)| > 0 && SerializeItems(items)[0] != ']'
  {
    SerializeHead(items[0]);
    if |items| > 1 {
      Split(Serialize(items[0]), "," + SerializeItems(items[1..]));
      Regroup3(Serialize(items[0]), ",", SerializeItems(items[1..]));
    }
  }

  lemma ParseEmptyContainers(rest: string)
    ensures ParseValue(Serialize(JArr([])) + rest) == Some((JArr([]), rest))
    ensures ParseValue(Serialize(JObj([])) + rest) == Some((JObj([]), rest))
  {
    assert Serialize(JArr([])) == "[]" && Serialize(JObj([])) == "{}";
    Split("[]", rest);
    Split("{}", rest);
  }

  lemma {:induction false} ParseArrayStep(items: seq<Json>, rest: string)
    requires |items| > 0 && ParseItems(SerializeItems(items) + "]" + rest) == Some((items, rest))
    ensures ParseValue(Serialize(JArr(items)) + rest) == Some((JArr(items), rest))
  {
    var inner := SerializeItems(items) + "]" + rest;
    Regroup4("[", SerializeItems(items), "]", rest);
    Split("[", inner);
    SerializeItemsHead(items);
    Split(SerializeItems(items), "]" + rest);
    ParseValueOfArrayText("[" + inner);
  }

  lemma SerializeMembersHead(fields: seq<Member>)
    requires |fields| > 0
    ensures |SerializeMembers(fields)| > 0 && SerializeMembers(fields)[0] == '"'
  {
    var m := fields[0];
    var head := MemberText(m);
    SplitMember(Escape(m.key), Serialize(m.value), "");
    assert head + "" == head;
    if |fields| > 1 {
      Split(head, "," + SerializeMembers(fields[1..]));
      Regroup3(head, ",", SerializeMembers(fields[1..]));
    }
  }

  lemma {:induction false} ParseObjectStep(fields: seq<Member>, rest: string)
    requires |fields| > 0 && ParseMembers(SerializeMembers(fields) + "}" + rest) == Some((fields, rest))
    ensures ParseValue(Serialize(JObj(fields)) + rest) == Some((JObj(fields), rest))
  {
    var inner := SerializeMembers(fields) + "}" + rest;
    Regroup4("{", SerializeMembers(fields), "}", rest);
    Split("{", inner);
    SerializeMembersHead(fields);
    Split(SerializeMembers(fields), "}" + rest);
    ParseValueOfObjectText("{" + inner);
  }

  /** A member's text parses to its key followed by whatever its value parses to. */
  lemma {:induction false} ParseMemberStep(m: Member, after: string)
    requires ParseValue(Serialize(m.value) + after) == Some((m.value, after))
    ensures ParseMembers(MemberText(m) + after) ==
      if |after| == 0 then None
      else if after[0] == '}' then Some(([m], after[1..]))
      else if after[0] == ',' then
        match ParseMembers(after[1..])
        case None => None
        case Some((more, last)) => Some(([m] + more, last))
      else None
  {
    MemberTextParts(m, after);
  }

  /** The pieces of a member's text: a quote, the key's characters through the closing quote, a colon, the value. */
  lemma MemberTextParts(m: Member, after: string)
    ensures var s, t := MemberText(m) + after, ":" + Serialize(m.value) + after;
      |s| > 0 && s[0] == '"' && ParseChars(s[1..]) == Some((m.key, t)) &&
      |t| > 0 && t[0] == ':' && t[1..] == Serialize(m.value) + after
  {
    SplitMember(Escape(m.key), Serialize(m.value), after);
    ParseCharsOfEscape(m.key, ":" + Serialize(m.value) + after);
  }

  lemma SplitMember(e: string, v: string, after: string)
    ensures var s, t := "\"" + e + "\"" + ":" + v + after, ":" + v + after;
      |s| > 0 && s[0] == '"' && s[1..] == e + "\"" + t && |t| > 0 && t[0] == ':' && t[1..] == v + after
  {
    var t := ":" + v + after;
    assert "\"" + e + "\"" + ":" + v + after == "\"" + (e + "\"" + t);
  }

  lemma {:induction false} ParseValueOfSerialize(v: Json, rest: string)
    requires EndsValue(rest)
    ensures ParseValue(Serialize(v) + rest) == Some((v, rest))
    decreases v
  {
    match v
    case JArr(items) =>
      if |items| == 0 {
        ParseEmptyContainers(rest);
      } else {
        ParseItemsOfSerialize(items, rest);
        ParseArrayStep(items, rest);
      }
    case JObj(fields) =>
      if |fields| == 0 {
        ParseEmptyContainers(rest);
      } else {
        ParseMembersOfSerialize(fields, rest);
        ParseObjectStep(fields, rest);
      }
    case _ =>
      ParseScalarOfSerialize(v, rest);
  }

  lemma {:induction false} ParseItemsOfSerialize(items: seq<Json>, rest: string)
    requires |items| > 0
    ensures ParseItems(SerializeItems(items) + "]" + rest) == Some((items, rest))
    decreases items
  {
    var v, after := items[0], ItemsTail(items, rest);
    ItemsTextSplit(items, rest);
    assert EndsValue(after);
    ParseValueOfSerialize(v, after);
    ParseItemStep(v, after);
    if |items| == 1 {
      assert after[1..] == rest;
      assert [v] == items;
    } else {
      ParseItemsOfSerialize(items[1..], rest);
      assert after[1..] == SerializeItems(items[1..]) + "]" + rest;
      assert [v] + items[1..] == items;
    }
  }

  /** What follows the first item of a non-empty array's text: the closing bracket or a comma and the rest. */
  function ItemsTail(items: seq<Json>, rest: string): string
    requires |items| > 0
  {
    if |items| == 1 then "]" + rest else "," + (SerializeItems(items[1..]) + "]" + rest)
  }

  lemma ItemsTextSplit(items: seq<Json>, rest: string)
    requires |items| > 0
    ensures SerializeItems(items) + "]" + rest == Serialize(items[0]) + ItemsTail(items, rest)
  {
    if |items| > 1 {
      var head, tail := Serialize(items[0]), SerializeItems(items[1..]);
      assert SerializeItems(items) == head + "," + tail;
      Regroup(head, ",", tail, "]", rest);
    }
  }

  /** An item's text parses to its value followed by what the items after it parse to. */
  lemma ParseItemStep(v: Json, after: string)
    requires ParseValue(Serialize(v) + after) == Some((v, after))
    ensures ParseItems(Serialize(v) + after) ==
      if |after| == 0 then None
      else if after[0] == ']' then Some(([v], after[1..]))
      else if after[0] == ',' then
        match ParseItems(after[1..])
        case None => None
        case Some((more, last)) => Some(([v] + more, last))
      else None
  {
  }

  function MembersTail(fields: seq<Member>, rest: string): string
    requires |fields| > 0
  {
    if |fields| == 1 then "}" + rest else "," + (SerializeMembers(fields[1..]) + "}" + rest)
  }

  lemma MembersTextSplit(fields: seq<Member>, rest: string)
    requires |fields| > 0
    ensures SerializeMembers(fields) + "}" + rest == MemberText(fields[0]) + MembersTail(fields, rest)
  {
    if |fields| > 1 {
      var head, tail := MemberText(fields[0]), SerializeMembers(fields[1..]);
      assert SerializeMembers(fields) == head + "," + tail;
      Regroup(head, ",", tail, "}", rest);
    }
  }

  lemma Regroup(a: string, b: string, c: string, d: string, e: string)
    ensures a + b + c + d + e == a + (b + (c + d + e))
  {
  }

  lemma Regroup3(a: string, b: string, c: string)
    ensures a + b + c == a + (b + c)
  {
  }

  lemma Regroup4(a: string, b: string, c: string, d: string)
    ensures a + b + c + d == a + (b + c + d)
  {
  }

  lemma SplitQuoted(e: string, rest: string)
    ensures var s := "\"" + e + "\"" + rest; |s| > 0 && s[0] == '"' && s[1..] == e + "\"" + rest
  {
    assert "\"" + e + "\"" + rest == "\"" + (e + "\"" + rest);
  }

  /** A text made of two pieces: its length, its first character, and the two pieces back. */
  lemma Split(a: string, b: string)
    ensures |a + b| == |a| + |b| && (a + b)[..|a|] == a && (a + b)[|a|..] == b
    ensures |a| > 0 ==> (a + b)[0] == a[0]
  {
  }

  lemma {:induction false} ParseMembersOfSerialize(fields: seq<Member>, rest: string)
    requires |fields| > 0
    ensures ParseMembers(SerializeMembers(fields) + "}" + rest) == Some((fields, rest))
    decreases fields
  {
    var m, after := fields[0], MembersTail(fields, rest);
    MembersTextSplit(fields, rest);
    assert EndsValue(after);
    ParseValueOfSerialize(m.value, after);
    ParseMemberStep(m, after);
    if |fields| == 1 {
      assert after[1..] == rest;
      assert [m] == fields;
    } else {
      ParseMembersOfSerialize(fields[1..], rest);
      assert after[1..] == SerializeMembers(fields[1..]) + "}" + rest;
      assert [m] + fields[1..] == fields;
    }
  }

  /** JSON.parse(JSON.stringify(v)) is v. */
  lemma ParseOfSerialize(v: Json)
    ensures Parse(Serialize(v)) == Some(v)
  {
    ParseValueOfSerialize(v, []);
    assert Serialize(v) + [] == Serialize(v);
  }

  /** Two values with the same JSON text are the same value. */
  lemma SerializeInjective(a: Json, b: Json)
    requires Serialize(a) == Serialize(b)
    ensures a == b
  {
    ParseOfSerialize(a);
    ParseOfSerialize(b);
  }
}
