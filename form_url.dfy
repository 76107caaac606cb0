/**
 * URLSearchParams serialisation (the application/x-www-form-urlencoded serializer of the WHATWG
 * URL Standard): every name and value is encoded as UTF-8, a space becomes '+', ASCII letters,
 * digits and `*-._` stay as they are, and every other byte becomes '%' and two upper-case hex
 * digits; pairs are written `name=value` and joined with '&'.
 */
module FormUrl {
  import opened Wrappers

  /** The UTF-8 encoding of one Unicode scalar value. */
  function Utf8(c: char): (bytes: seq<int>)
    ensures 1 <= |bytes| <= 4
    ensures forall i :: 0 <= i < |bytes| ==> 0 <= bytes[i] < 256
    ensures (c as int < 0x80) <==> |bytes| == 1
    ensures |bytes| == 1 ==> bytes[0] == c as int
  {
    var n := c as int;
    if n < 0x80 then [n]
    else if n < 0x800 then [0xC0 + n / 64, 0x80 + n % 64]
    else if n < 0x10000 then [0xE0 + n / 4096, 0x80 + (n / 64) % 64, 0x80 + n % 64]
    else [0xF0 + n / 262144, 0x80 + (n / 4096) % 64, 0x80 + (n / 64) % 64, 0x80 + n % 64]
  }

  function Utf8Of(s: string): (bytes: seq<int>)
    ensures forall i :: 0 <= i < |bytes| ==> 0 <= bytes[i] < 256
    decreases |s|
  {
    if s == [] then [] else Utf8(s[0]) + Utf8Of(s[1..])
  }

  /** The bytes the serializer writes as themselves. */
  predicate Unreserved(b: int)
  {
    0x30 <= b <= 0x39 || 0x41 <= b <= 0x5A || 0x61 <= b <= 0x7A ||
    b == 0x2A || b == 0x2D || b == 0x2E || b == 0x5F
  }

  function UpperHex(d: int): (c: char)
    requires 0 <= d < 16
  {
    if d < 10 then ('0' as int + d) as char else ('A' as int + d - 10) as char
  }

  function UpperHexValue(c: char): (r: Option<int>)
    ensures r.Some? ==> 0 <= r.value < 16 && UpperHex(r.value) == c
  {
    if '0' <= c <= '9' then Some(c as int - '0' as int)
    else if 'A' <= c <= 'F' then Some(c as int - 'A' as int + 10)
    else None
  }

  lemma UpperHexValueOf(d: int)
    requires 0 <= d < 16
    ensures UpperHexValue(UpperHex(d)) == Some(d)
  {
  }

  /** How one byte is written. */
  function EncodeByte(b: int): (t: string)
    requires 0 <= b < 256
    ensures 1 <= |t| <= 3
  {
    if b == 0x20 then "+"
    else if Unreserved(b) then [b as char]
    else ['%', UpperHex(b / 16), UpperHex(b % 16)]
  }

  function EncodeBytes(bytes: seq<int>): string
    requires forall i :: 0 <= i < |bytes| ==> 0 <= bytes[i] < 256
    decreases |bytes|
  {
    if bytes == [] then [] else EncodeByte(bytes[0]) + EncodeBytes(bytes[1..])
  }

  /** One name or value, encoded. */
  function Encode(s: string): string
  {
    EncodeBytes(Utf8Of(s))
  }

  /** The serializer's output alphabet: unreserved characters, '+', '%' and hex digits. */
  predicate EncodedChar(c: char)
  {
    Unreserved(c as int) || c == '+' || c == '%'
  }

  predicate EncodedText(t: string)
  {
    forall i :: 0 <= i < |t| ==> EncodedChar(t[i])
  }

  lemma {:induction false} EncodeBytesInAlphabet(bytes: seq<int>)
    requires forall i :: 0 <= i < |bytes| ==> 0 <= bytes[i] < 256
    ensures EncodedText(EncodeBytes(bytes))
    decreases |bytes|
  {
    if bytes != [] {
      EncodeBytesInAlphabet(bytes[1..]);
      var head := EncodeByte(bytes[0]);
      var tail := EncodeBytes(bytes[1..]);
      assert EncodedText(head);
      forall i | 0 <= i < |head + tail|
        ensures EncodedChar((head + tail)[i])
      {
        if i >= |head| {
          assert (head + tail)[i] == tail[i - |head|];
        }
      }
    }
  }

  /** Encoded text never holds the '&' and '=' that delimit pairs, nor a space, '?' or '#'. */
  lemma EncodeHasNoDelimiters(s: string)
    ensures EncodedText(Encode(s))
    ensures '&' !in Encode(s) && '=' !in Encode(s) && ' ' !in Encode(s) && '?' !in Encode(s) && '#' !in Encode(s)
  {
    EncodeBytesInAlphabet(Utf8Of(s));
  }

  /** Percent-decoding as a form parser does it, giving the bytes back; None on a broken escape. */
  function PercentDecode(t: string): (r: Option<seq<int>>)
    decreases |t|
  {
    if t == [] then Some([])
    else if t[0] == '+' then
      match PercentDecode(t[1..])
      case Some(rest) => Some([0x20] + rest)
      case None => None
    else if t[0] == '%' then
      if |t| < 3 then None
      else
        match (UpperHexValue(t[1]), UpperHexValue(t[2]), PercentDecode(t[3..]))
        case (Some(hi), Some(lo), Some(rest)) => Some([hi * 16 + lo] + rest)
        case _ => None
    else if t[0] as int < 0x80 then
      match PercentDecode(t[1..])
      case Some(rest) => Some([t[0] as int] + rest)
      case None => None
    else None
  }

  lemma {:induction false} PercentDecodeOfEncodeByte(b: int, rest: string)
    requires 0 <= b < 256
    ensures PercentDecode(EncodeByte(b) + rest) ==
      match PercentDecode(rest) case Some(r) => Some([b] + r) case None => None
  {
    var t := EncodeByte(b) + rest;
    if b == 0x20 {
      assert t[1..] == rest;
    } else if Unreserved(b) {
      assert t[1..] == rest;
    } else {
      UpperHexValueOf(b / 16);
      UpperHexValueOf(b % 16);
      assert t[1] == UpperHex(b / 16) && t[2] == UpperHex(b % 16);
      assert t[3..] == rest;
    }
  }

  lemma {:induction false} PercentDecodeOfEncodeBytes(bytes: seq<int>)
    requires forall i :: 0 <= i < |bytes| ==> 0 <= bytes[i] < 256
    ensures PercentDecode(EncodeBytes(bytes)) == Some(bytes)
    decreases |bytes|
  {
    if bytes != [] {
      PercentDecodeOfEncodeBytes(bytes[1..]);
      PercentDecodeOfEncodeByte(bytes[0], EncodeBytes(bytes[1..]));
      assert [bytes[0]] + bytes[1..] == bytes;
    }
  }

  /** Decoding what the serializer wrote gives back exactly the UTF-8 bytes of the original text. */
  lemma PercentDecodeOfEncode(s: string)
    ensures PercentDecode(Encode(s)) == Some(Utf8Of(s))
  {
    PercentDecodeOfEncodeBytes(Utf8Of(s));
  }

  /** Text that only holds digits, ASCII letters and `-._*` is written unchanged (page numbers, ISO dates). */
  lemma {:induction false} EncodePlain(s: string)
    requires forall i :: 0 <= i < |s| ==> Unreserved(s[i] as int)
    ensures Encode(s) == s
    decreases |s|
  {
    if s != [] {
      EncodePlain(s[1..]);
      assert Utf8(s[0]) == [s[0] as int];
      assert Utf8Of(s) == [s[0] as int] + Utf8Of(s[1..]);
      assert EncodeBytes(Utf8Of(s)) == EncodeByte(s[0] as int) + EncodeBytes(Utf8Of(s[1..]));
      assert [s[0]] + s[1..] == s;
    }
  }

  /** `name=value`, both encoded. */
  function PairText(pair: (string, string)): (t: string)
    ensures t != ""
  {
    Encode(pair.0) + "=" + Encode(pair.1)
  }

  function JoinAmp(parts: seq<string>): string
    decreases |parts|
  {
    if |parts| == 0 then ""
    else if |parts| == 1 then parts[0]
    else parts[0] + "&" + JoinAmp(parts[1..])
  }

  /** URLSearchParams.toString() over the appended pairs, in append order. */
  function QueryString(pairs: seq<(string, string)>): (q: string)
    ensures q == "" <==> pairs == []
  {
    JoinAmpEmpty(PairTexts(pairs));
    JoinAmp(PairTexts(pairs))
  }

  lemma JoinAmpEmpty(parts: seq<string>)
    requires forall i :: 0 <= i < |parts| ==> parts[i] != ""
    ensures JoinAmp(parts) == "" <==> parts == []
  {
    if |parts| > 1 {
      assert JoinAmp(parts) == parts[0] + "&" + JoinAmp(parts[1..]);
    }
  }

  /** The pieces between '&' characters. */
  function SplitAmp(s: string): (parts: seq<string>)
    ensures |parts| > 0
    decreases |s|
  {
    if s == [] then [[]]
    else
      var rest := SplitAmp(s[1..]);
      if s[0] == '&' then [[]] + rest else [[s[0]] + rest[0]] + rest[1..]
  }

  lemma {:induction false} SplitAmpPlain(p: string)
    requires '&' !in p
    ensures SplitAmp(p) == [p]
    decreases |p|
  {
    if p != [] {
      SplitAmpPlain(p[1..]);
      assert [p[0]] + p[1..] == p;
    }
  }

  lemma {:induction false} SplitAmpStep(p: string, q: string)
    requires '&' !in p
    ensures SplitAmp(p + "&" + q) == [p] + SplitAmp(q)
    decreases |p|
  {
    if p == [] {
      assert (p + "&" + q)[1..] == q;
    } else {
      assert (p + "&" + q)[1..] == p[1..] + "&" + q;
      SplitAmpStep(p[1..], q);
      assert [p[0]] + p[1..] == p;
    }
  }

  /** The position of the first '=', if any. */
  function FirstEquals(s: string): (r: Option<nat>)
    ensures r.Some? ==> r.value < |s| && s[r.value] == '=' && '=' !in s[..r.value]
    ensures r.None? ==> '=' !in s
    decreases |s|
  {
    if s == [] then None
    else if s[0] == '=' then Some(0)
    else
      match FirstEquals(s[1..])
      case Some(i) => assert s[..i + 1] == [s[0]] + s[1..][..i]; Some(i + 1)
      case None => assert s == [s[0]] + s[1..]; None
  }

  /** One `name=value` piece, decoded; a piece without '=' has an empty value. */
  function ParsePair(part: string): Option<(seq<int>, seq<int>)>
  {
    var (name, value) := match FirstEquals(part)
      case Some(i) => (part[..i], part[i + 1..])
      case None => (part, "");
    match (PercentDecode(name), PercentDecode(value))
    case (Some(n), Some(v)) => Some((n, v))
    case _ => None
  }

  function ParsePairs(parts: seq<string>): Option<seq<(seq<int>, seq<int>)>>
    decreases |parts|
  {
    if parts == [] then Some([])
    else
      match (ParsePair(parts[0]), ParsePairs(parts[1..]))
      case (Some(p), Some(rest)) => Some([p] + rest)
      case _ => None
  }

  /** How a server reads a query string: split at '&', split each piece at its first '=', decode. */
  function ParseQuery(q: string): Option<seq<(seq<int>, seq<int>)>>
  {
    if q == "" then Some([]) else ParsePairs(SplitAmp(q))
  }

  /** The byte pairs a server should see for the appended pairs. */
  function PairBytes(pairs: seq<(string, string)>): (r: seq<(seq<int>, seq<int>)>)
    ensures |r| == |pairs|
    ensures forall i :: 0 <= i < |pairs| ==> r[i] == (Utf8Of(pairs[i].0), Utf8Of(pairs[i].1))
  {
    seq(|pairs|, i requires 0 <= i < |pairs| => (Utf8Of(pairs[i].0), Utf8Of(pairs[i].1)))
  }

  lemma ParsePairOfPairText(pair: (string, string))
    ensures '&' !in PairText(pair)
    ensures ParsePair(PairText(pair)) == Some((Utf8Of(pair.0), Utf8Of(pair.1)))
  {
    EncodeHasNoDelimiters(pair.0);
    EncodeHasNoDelimiters(pair.1);
    var n, v := Encode(pair.0), Encode(pair.1);
    var t := n + "=" + v;
    assert t[..|n|] == n && t[|n|] == '=';
    assert forall i :: 0 <= i < |n| ==> t[i] == n[i];
    assert forall k :: |n| < k <= |t| ==> t[..k][|n|] == '=';
    assert FirstEquals(t) == Some(|n|);
    assert t[|n| + 1..] == v;
    PercentDecodeOfEncode(pair.0);
    PercentDecodeOfEncode(pair.1);
  }

  /** The pieces QueryString joins: one `name=value` per pair. */
  function PairTexts(pairs: seq<(string, string)>): (parts: seq<string>)
    ensures |parts| == |pairs|
    ensures forall i :: 0 <= i < |pairs| ==> parts[i] == PairText(pairs[i])
  {
    seq(|pairs|, i requires 0 <= i < |pairs| => PairText(pairs[i]))
  }

  lemma ParsePairsCons(part: string, parts: seq<string>)
    ensures ParsePairs([part] + parts) ==
      match (ParsePair(part), ParsePairs(parts))
      case (Some(p), Some(rest)) => Some([p] + rest)
      case _ => None
  {
    assert ([part] + parts)[1..] == parts;
  }

  lemma {:induction false} ParseJoinedPairs(pairs: seq<(string, string)>)
    requires pairs != []
    ensures ParsePairs(SplitAmp(JoinAmp(PairTexts(pairs)))) == Some(PairBytes(pairs))
    decreases |pairs|
  {
    var parts := PairTexts(pairs);
    var first := (Utf8Of(pairs[0].0), Utf8Of(pairs[0].1));
    ParsePairOfPairText(pairs[0]);
    if |pairs| == 1 {
      SplitAmpPlain(parts[0]);
      ParsePairsCons(parts[0], []);
      assert [parts[0]] + [] == [parts[0]];
      assert [first] + [] == [first];
      assert PairBytes(pairs) == [first];
    } else {
      assert parts[1..] == PairTexts(pairs[1..]);
      ParseJoinedPairs(pairs[1..]);
      SplitAmpStep(parts[0], JoinAmp(parts[1..]));
      ParsePairsCons(parts[0], SplitAmp(JoinAmp(parts[1..])));
      assert PairBytes(pairs) == [first] + PairBytes(pairs[1..]);
    }
  }

  /** A server reading the query gets back exactly the appended pairs, as UTF-8 bytes, in order. */
  lemma ParseQueryOfQueryString(pairs: seq<(string, string)>)
    ensures ParseQuery(QueryString(pairs)) == Some(PairBytes(pairs))
  {
    if pairs != [] {
      ParseJoinedPairs(pairs);
    }
  }
}
