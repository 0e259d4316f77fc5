/**
 * The XGPS sentence parser of the UDP receive loop: a datagram payload is decoded
 * as US-ASCII, trimmed, checked for the `XGPS` tag, and the five comma-separated
 * numeric fields after the first comma become a fix. A field that the number
 * parser rejects becomes 0.
 *
 * Kotlin's `String.toDoubleOrNull` is left uninterpreted: every parse takes it as
 * the parameter `num`.
 */
module XgpsParser {
  import opened Wrappers

  newtype byte = x: int | 0 <= x < 256

  /** The sentence tag, matched case-sensitively at the start of the text. */
  const Tag: string := "XGPS"
  /** What US-ASCII decoding puts in place of a byte 0x80 or above. */
  const Replacement: char := '\U{FFFD}'
  /** The field separator. */
  const Comma: char := ','
  /** Fields needed after the first comma: lon, lat, alt, bearing, speed. */
  const FieldCount: nat := 5

  /** One decoded sentence. Bearing and speed are Kotlin `Float`s, the rest `Double`s. */
  datatype Fix = Fix(lon: real, lat: real, alt: real, bearing: real, speed: real)

  // ---------------------------------------------------------------------------
  // US-ASCII decoding

  function DecodeByte(b: byte): (c: char)
    ensures b < 0x80 ==> c as int == b as int
    ensures b >= 0x80 ==> c == Replacement
  {
    if b < 0x80 then (b as int) as char else Replacement
  }

  /** `String(bytes, 0, n, Charsets.US_ASCII)`: one character per byte. */
  function DecodeAscii(bs: seq<byte>): (s: string)
    ensures |s| == |bs|
  {
    if bs == [] then [] else [DecodeByte(bs[0])] + DecodeAscii(bs[1..])
  }

  predicate IsAscii(s: string) {
    forall i :: 0 <= i < |s| ==> s[i] as int < 0x80
  }

  /** The bytes a sender puts on the wire for an ASCII sentence. */
  function EncodeAscii(s: string): (bs: seq<byte>)
    requires IsAscii(s)
    ensures |bs| == |s|
  {
    if s == [] then [] else [s[0] as int as byte] + EncodeAscii(s[1..])
  }

  /** Decoding the bytes of an ASCII text gives the text back. */
  lemma {:induction false} DecodeEncode(s: string)
    requires IsAscii(s)
    ensures DecodeAscii(EncodeAscii(s)) == s
  {
    if s != [] {
      assert IsAscii(s[1..]) by {
        forall i | 0 <= i < |s[1..]| ensures s[1..][i] as int < 0x80 { assert s[1..][i] == s[i + 1]; }
      }
      DecodeEncode(s[1..]);
    }
  }

  /** Decoding is the identity on bytes below 0x80 and maps every other byte to U+FFFD. */
  lemma {:induction false} DecodeAsciiAt(bs: seq<byte>, i: nat)
    requires i < |bs|
    ensures DecodeAscii(bs)[i] == (if bs[i] < 0x80 then (bs[i] as int) as char else Replacement)
  {
    if i > 0 { DecodeAsciiAt(bs[1..], i - 1); }
  }

  // ---------------------------------------------------------------------------
  // Kotlin's `trim()`: strips characters for which `Char.isWhitespace()` holds

  /** Kotlin's `Char.isWhitespace()` on the JVM: Java's `isWhitespace` or `isSpaceChar`. */
  predicate IsWhitespace(c: char) {
    || c == '\t' || c == '\n' || c == '\U{000B}' || c == '\U{000C}' || c == '\r'
    || ('\U{001C}' <= c <= '\U{001F}') || c == ' '
    || c == '\U{00A0}' || c == '\U{1680}' || ('\U{2000}' <= c <= '\U{200A}')
    || c == '\U{2028}' || c == '\U{2029}' || c == '\U{202F}' || c == '\U{205F}' || c == '\U{3000}'
  }

  /** The number of leading whitespace characters of `s`. */
  function LeadingSpace(s: string): (n: nat)
    ensures n <= |s|
    ensures forall k :: 0 <= k < n ==> IsWhitespace(s[k])
    ensures n < |s| ==> !IsWhitespace(s[n])
  {
    if s == [] || !IsWhitespace(s[0]) then 0 else 1 + LeadingSpace(s[1..])
  }

  /** The number of trailing whitespace characters of `s`. */
  function TrailingSpace(s: string): (n: nat)
    ensures n <= |s|
    ensures forall k :: |s| - n <= k < |s| ==> IsWhitespace(s[k])
    ensures n < |s| ==> !IsWhitespace(s[|s| - 1 - n])
  {
    if s == [] || !IsWhitespace(s[|s| - 1]) then 0 else 1 + TrailingSpace(s[..|s| - 1])
  }

  /** `s.trim()`: `s` is the result framed by whitespace, and the result neither starts nor ends with whitespace. */
  function Trim(s: string): (r: string)
    ensures |r| <= |s|
    ensures r != [] ==> !IsWhitespace(r[0]) && !IsWhitespace(r[|r| - 1])
    ensures LeadingSpace(s) + |r| <= |s| && s[LeadingSpace(s)..LeadingSpace(s) + |r|] == r
    ensures forall k :: LeadingSpace(s) + |r| <= k < |s| ==> IsWhitespace(s[k])
  {
    var i := LeadingSpace(s);
    var rest := s[i..];
    var r := rest[..|rest| - TrailingSpace(rest)];
    assert s[i..i + |r|] == r;
    assert forall k :: i + |r| <= k < |s| ==> s[k] == rest[k - i];
    r
  }

  /** Trimming text that neither starts nor ends with whitespace changes nothing. */
  lemma TrimmedIsFixed(s: string)
    requires s != [] ==> !IsWhitespace(s[0]) && !IsWhitespace(s[|s| - 1])
    ensures Trim(s) == s
  {
  }

  // ---------------------------------------------------------------------------
  // `startsWith`, `substringAfter`, `split`

  predicate StartsWith(s: string, prefix: string) {
    |prefix| <= |s| && s[..|prefix|] == prefix
  }

  /** `s.indexOf(c)`: the first position of `c`, or None when `c` does not occur. */
  function IndexOf(s: string, c: char): (r: Option<nat>)
    ensures r.None? <==> c !in s
    ensures r.Some? ==> r.value < |s| && s[r.value] == c && c !in s[..r.value]
  {
    if s == [] then None
    else if s[0] == c then Some(0)
    else match IndexOf(s[1..], c)
      case None => None
      case Some(i) => assert s[..i + 1] == [s[0]] + s[1..][..i]; Some(i + 1)
  }

  /** `s.substringAfter(",")`: the text after the first comma, or the whole of `s` when it has none. */
  function SubstringAfter(s: string): (r: string)
    ensures Comma !in s ==> r == s
    ensures Comma in s ==> exists i :: 0 <= i < |s| && s[i] == Comma && Comma !in s[..i] && r == s[i + 1..]
  {
    match IndexOf(s, Comma)
    case None => s
    case Some(i) => s[i + 1..]
  }

  /** The fields joined back with commas between them. */
  function Join(fields: seq<string>): string {
    if |fields| == 0 then ""
    else if |fields| == 1 then fields[0]
    else fields[0] + [Comma] + Join(fields[1..])
  }

  lemma JoinCons(f: string, rest: seq<string>)
    requires |rest| >= 1
    ensures Join([f] + rest) == f + [Comma] + Join(rest)
  {
    assert ([f] + rest)[1..] == rest;
  }

  predicate NoComma(s: string) {
    Comma !in s
  }

  /** `s.split(",")`: Kotlin keeps every empty field, including trailing ones. */
  function Split(s: string): (fields: seq<string>)
    ensures |fields| >= 1
    ensures forall j :: 0 <= j < |fields| ==> NoComma(fields[j])
    ensures Join(fields) == s
    decreases |s|
  {
    match IndexOf(s, Comma)
    case None => [s]
    case Some(i) =>
      var rest := Split(s[i + 1..]);
      assert s == s[..i] + [Comma] + s[i + 1..];
      [s[..i]] + rest
  }

  /** Split undoes Join: comma-free fields come back exactly. */
  lemma {:induction false} SplitJoin(fields: seq<string>)
    requires |fields| >= 1
    requires forall j :: 0 <= j < |fields| ==> NoComma(fields[j])
    ensures Split(Join(fields)) == fields
  {
    if |fields| > 1 {
      var s := Join(fields);
      var f := fields[0];
      assert s == f + [Comma] + Join(fields[1..]);
      assert s[|f|] == Comma;
      assert s[..|f|] == f;
      assert IndexOf(s, Comma) == Some(|f|);
      assert s[|f| + 1..] == Join(fields[1..]);
      SplitJoin(fields[1..]);
    }
  }

  function CommaCount(s: string): nat {
    if s == [] then 0 else (if s[0] == Comma then 1 else 0) + CommaCount(s[1..])
  }

  lemma {:induction false} CommaCountAppend(a: string, b: string)
    ensures CommaCount(a + b) == CommaCount(a) + CommaCount(b)
  {
    if a == [] {
      assert a + b == b;
    } else {
      assert (a + b)[0] == a[0] && (a + b)[1..] == a[1..] + b;
      CommaCountAppend(a[1..], b);
    }
  }

  lemma {:induction false} CommaCountNone(s: string)
    requires NoComma(s)
    ensures CommaCount(s) == 0
  {
    if s != [] { CommaCountNone(s[1..]); }
  }

  /** Splitting gives one field more than there are commas. */
  lemma {:induction false} SplitCount(s: string)
    ensures |Split(s)| == CommaCount(s) + 1
    decreases |s|
  {
    match IndexOf(s, Comma)
    case None => CommaCountNone(s);
    case Some(i) =>
      assert s == s[..i] + ([Comma] + s[i + 1..]);
      CommaCountAppend(s[..i], [Comma] + s[i + 1..]);
      CommaCountAppend([Comma], s[i + 1..]);
      CommaCountNone(s[..i]);
      SplitCount(s[i + 1..]);
  }

  // ---------------------------------------------------------------------------
  // The sentence

  /** `field.toDoubleOrNull() ?: 0.0`. */
  function FieldValue(num: string -> Option<real>, field: string): (x: real)
    ensures num(field).Some? ==> x == num(field).value
    ensures num(field).None? ==> x == 0.0
  {
    num(field).GetOr(0.0)
  }

  /** The parse of an already decoded and trimmed text. */
  function ParseText(text: string, num: string -> Option<real>): Option<Fix> {
    if !StartsWith(text, Tag) then None
    else
      var parts := Split(SubstringAfter(text));
      if |parts| < FieldCount then None
      else Some(Fix(FieldValue(num, parts[0]), FieldValue(num, parts[1]), FieldValue(num, parts[2]),
                    FieldValue(num, parts[3]), FieldValue(num, parts[4])))
  }

  /** The parse of one received payload. */
  function ParsePayload(payload: seq<byte>, num: string -> Option<real>): Option<Fix> {
    ParseText(Trim(DecodeAscii(payload)), num)
  }

  /** A text is accepted exactly when it starts with `XGPS` and holds at least five commas. */
  lemma AcceptedIff(text: string, num: string -> Option<real>)
    ensures ParseText(text, num).Some? <==> StartsWith(text, Tag) && CommaCount(text) >= FieldCount
  {
    var after := SubstringAfter(text);
    SplitCount(after);
    match IndexOf(text, Comma)
    case None => CommaCountNone(text);
    case Some(i) =>
      assert text == text[..i] + ([Comma] + after);
      CommaCountAppend(text[..i], [Comma] + after);
      CommaCountAppend([Comma], after);
      CommaCountNone(text[..i]);
  }

  /**
   * A sentence `head,f0,f1,...` whose head starts with `XGPS` is accepted exactly
   * when it has at least five fields; then field 0 gives the longitude, 1 the
   * latitude, 2 the altitude, 3 the bearing and 4 the speed, each field on its own,
   * and fields past the fifth are ignored.
   */
  lemma ParseSentence(head: string, fields: seq<string>, num: string -> Option<real>)
    requires StartsWith(head, Tag) && NoComma(head)
    requires |fields| >= 1
    requires forall j :: 0 <= j < |fields| ==> NoComma(fields[j])
    ensures |fields| < FieldCount ==> ParseText(head + [Comma] + Join(fields), num) == None
    ensures |fields| >= FieldCount ==>
              ParseText(head + [Comma] + Join(fields), num)
                == Some(Fix(FieldValue(num, fields[0]), FieldValue(num, fields[1]), FieldValue(num, fields[2]),
                            FieldValue(num, fields[3]), FieldValue(num, fields[4])))
  {
    var text := head + [Comma] + Join(fields);
    assert text[..|head|] == head;
    assert text[..|Tag|] == head[..|Tag|];
    assert text[|head|] == Comma;
    assert IndexOf(text, Comma) == Some(|head|);
    assert text[|head| + 1..] == Join(fields);
    SplitJoin(fields);
  }

  /** The payload of an ASCII sentence parses as its trimmed text. */
  lemma ParseAsciiPayload(s: string, num: string -> Option<real>)
    requires IsAscii(s)
    ensures ParsePayload(EncodeAscii(s), num) == ParseText(Trim(s), num)
  {
    DecodeEncode(s);
  }

  /** A text without a comma is one field and is rejected, whatever follows the tag. */
  lemma NoCommaRejected(text: string, num: string -> Option<real>)
    requires NoComma(text)
    ensures ParseText(text, num) == None
  {
    AcceptedIff(text, num);
    CommaCountNone(text);
  }

  /** `XGPS1,12.5,abc,100,90,5`: the unparsable latitude becomes 0 and the other fields are kept. */
  lemma ExampleBadField(num: string -> Option<real>)
    requires num("12.5") == Some(12.5) && num("abc") == None
    requires num("100") == Some(100.0) && num("90") == Some(90.0) && num("5") == Some(5.0)
    ensures ParseText("XGPS1,12.5,abc,100,90,5", num) == Some(Fix(12.5, 0.0, 100.0, 90.0, 5.0))
  {
    var fields := ["12.5", "abc", "100", "90", "5"];
    assert "XGPS1" + [Comma] + Join(fields) == "XGPS1,12.5,abc,100,90,5" by {
      JoinCons("90", ["5"]);
      JoinCons("100", ["90", "5"]);
      JoinCons("abc", ["100", "90", "5"]);
      JoinCons("12.5", ["abc", "100", "90", "5"]);
    }
    ParseSentence("XGPS1", fields, num);
  }

  /** `XGPS,,,,,` is accepted: five empty fields, none of which parses, so every value is 0. */
  lemma ExampleEmptyFields(num: string -> Option<real>)
    requires num("") == None
    ensures ParseText("XGPS,,,,,", num) == Some(Fix(0.0, 0.0, 0.0, 0.0, 0.0))
  {
    var fields := ["", "", "", "", ""];
    assert "XGPS" + [Comma] + Join(fields) == "XGPS,,,,," by {
      JoinCons("", [""]);
      JoinCons("", ["", ""]);
      JoinCons("", ["", "", ""]);
      JoinCons("", ["", "", "", ""]);
    }
    ParseSentence("XGPS", fields, num);
  }

  /** Four fields are not enough. */
  lemma ExampleTooFewFields(num: string -> Option<real>)
    ensures ParseText("XGPS,1,2,3,4", num) == None
  {
    var fields := ["1", "2", "3", "4"];
    assert "XGPS" + [Comma] + Join(fields) == "XGPS,1,2,3,4" by {
      JoinCons("3", ["4"]);
      JoinCons("2", ["3", "4"]);
      JoinCons("1", ["2", "3", "4"]);
    }
    ParseSentence("XGPS", fields, num);
  }

  /** The tag is case-sensitive. */
  lemma ExampleLowerCaseTag(num: string -> Option<real>)
    ensures ParseText("xgps,1,2,3,4,5", num) == None
  {
    assert "xgps,1,2,3,4,5"[0] != Tag[0];
  }
}
