/**
 * JSON values as trees, and the text writer behind `JSONEncoder` and
 * `JSONSerialization`.
 *
 * The writer is concrete for integers, strings, arrays and objects. How a
 * `Double` is printed, and whether it can be printed at all (NaN and the
 * infinities make both Foundation encoders fail), is the platform's
 * business: it is the `formatReal` parameter. Object members are written in
 * the order they are listed.
 */
module Json {
  import opened Wrappers

  datatype Json =
    | JInt(i: int)
    | JReal(r: real)
    | JString(s: string)
    | JArray(items: seq<Json>)
    | JObject(members: seq<Member>)

  datatype Member = Member(key: string, value: Json)

  /**
   * Encoder settings: `escapeSlashes` is false exactly when the encoder is
   * given `.withoutEscapingSlashes`.
   */
  datatype WriterOptions = WriterOptions(escapeSlashes: bool, formatReal: real -> Option<string>)

  /** The value of the first member named `key`, if any. */
  function Find(members: seq<Member>, key: string): (r: Option<Json>)
    ensures r.Some? ==> exists k :: 0 <= k < |members| && members[k] == Member(key, r.value)
    ensures r.None? ==> forall k :: 0 <= k < |members| ==> members[k].key != key
    ensures 0 < |members| && members[0].key == key ==> r == Some(members[0].value)
  {
    if |members| == 0 then None
    else if members[0].key == key then Some(members[0].value)
    else
      var rest := Find(members[1..], key);
      assert forall k :: 0 <= k < |members[1..]| ==> members[1..][k] == members[k + 1];
      rest
  }

  /** In a member list, a key that no earlier member has finds its own member. */
  lemma {:induction false} FindAt(members: seq<Member>, k: nat)
    requires k < |members|
    requires forall i :: 0 <= i < k ==> members[i].key != members[k].key
    ensures Find(members, members[k].key) == Some(members[k].value)
  {
    if k > 0 {
      FindAt(members[1..], k - 1);
    }
  }

  /** The value of the member named `key` of an object, if any. */
  function Get(j: Json, key: string): Option<Json> {
    if j.JObject? then Find(j.members, key) else None
  }

  /** An array of numbers, as a `[Double]` is encoded. */
  function RealArray(xs: seq<real>): (j: Json)
    ensures j.JArray? && |j.items| == |xs|
    ensures forall k :: 0 <= k < |xs| ==> j.items[k] == JReal(xs[k])
  {
    JArray(seq(|xs|, k requires 0 <= k < |xs| => JReal(xs[k])))
  }

  /** No two members share a key. */
  predicate DistinctKeys(members: seq<Member>) {
    forall i, k :: 0 <= i < k < |members| ==> members[i].key != members[k].key
  }

  /** In an object whose keys are distinct, every member is found under its own key. */
  lemma GetDistinct(members: seq<Member>)
    requires DistinctKeys(members)
    ensures forall k :: 0 <= k < |members| ==> Get(JObject(members), members[k].key) == Some(members[k].value)
  {
    forall k | 0 <= k < |members|
      ensures Find(members, members[k].key) == Some(members[k].value)
    {
      FindAt(members, k);
    }
  }

  // ---------------------------------------------------------------------------
  // Strings

  /** The characters a JSON string must escape (besides the optional `/`). */
  predicate MustEscape(c: char) {
    c == '"' || c == '\\' || (c as int) < 0x20
  }

  /** A string that every writer setting leaves as it is, apart from `/`. */
  predicate Plain(s: string) {
    forall k :: 0 <= k < |s| ==> !MustEscape(s[k])
  }

  function HexDigit(n: nat): char
    requires n < 16
  {
    "0123456789abcdef"[n]
  }

  predicate IsHexDigit(c: char) {
    ('0' <= c <= '9') || ('a' <= c <= 'f') || ('A' <= c <= 'F')
  }

  function HexValue(c: char): (v: nat)
    requires IsHexDigit(c)
    ensures v < 16
  {
    if '0' <= c <= '9' then (c as int) - ('0' as int)
    else if 'a' <= c <= 'f' then (c as int) - ('a' as int) + 10
    else (c as int) - ('A' as int) + 10
  }

  /** The one-letter escapes `\"`, `\\`, `\/`, `\b`, `\f`, `\n`, `\r`, `\t`, read back. */
  function ShortEscape(c: char): Option<char> {
    match c
    case '"' => Some('"')
    case '\\' => Some('\\')
    case '/' => Some('/')
    case 'b' => Some('\U{8}')
    case 'f' => Some('\U{C}')
    case 'n' => Some('\n')
    case 'r' => Some('\r')
    case 't' => Some('\t')
    case _ => None
  }

  /** How one character is written inside a JSON string. */
  function EscapeChar(escapeSlashes: bool, c: char): (r: string)
    ensures r == [c] <==> !MustEscape(c) && !(escapeSlashes && c == '/')
    ensures r != [c] ==> 2 <= |r| && r[0] == '\\'
  {
    if c == '"' then "\\\""
    else if c == '\\' then "\\\\"
    else if c == '/' && escapeSlashes then "\\/"
    else if c == '\U{8}' then "\\b"
    else if c == '\U{C}' then "\\f"
    else if c == '\n' then "\\n"
    else if c == '\r' then "\\r"
    else if c == '\t' then "\\t"
    else if (c as int) < 0x20 then "\\u00" + [HexDigit((c as int) / 16), HexDigit((c as int) % 16)]
    else [c]
  }

  /** The body of a JSON string literal, without the quotes. */
  function Escape(escapeSlashes: bool, s: string): string {
    if |s| == 0 then [] else EscapeChar(escapeSlashes, s[0]) + Escape(escapeSlashes, s[1..])
  }

  /** Reads the body of a JSON string literal back; `None` on a malformed escape. */
  function Unescape(t: string): Option<string>
    decreases |t|
  {
    if |t| == 0 then Some([])
    else if t[0] != '\\' then Prepend(t[0], Unescape(t[1..]))
    else if |t| < 2 then None
    else if ShortEscape(t[1]).Some? then Prepend(ShortEscape(t[1]).value, Unescape(t[2..]))
    else if t[1] == 'u' && 6 <= |t| && IsHexDigit(t[2]) && IsHexDigit(t[3]) && IsHexDigit(t[4]) && IsHexDigit(t[5]) then
      var v := 4096 * HexValue(t[2]) + 256 * HexValue(t[3]) + 16 * HexValue(t[4]) + HexValue(t[5]);
      // surrogate pairs are not read back
      if v < 0xD800 || 0xE000 <= v then Prepend(v as char, Unescape(t[6..])) else None
    else None
  }

  function Prepend(c: char, rest: Option<string>): Option<string> {
    if rest.Some? then Some([c] + rest.value) else None
  }

  /** A two-character escape names the character it was written for. */
  lemma ShortEscapeInverse(escapeSlashes: bool, c: char)
    requires |EscapeChar(escapeSlashes, c)| == 2
    ensures ShortEscape(EscapeChar(escapeSlashes, c)[1]) == Some(c)
  {
  }

  /** A `\u00XX` escape names the control character it was written for. */
  lemma UnescapeUnicode(c: char, rest: string)
    requires (c as int) < 0x20
    ensures Unescape("\\u00" + [HexDigit((c as int) / 16), HexDigit((c as int) % 16)] + rest) == Prepend(c, Unescape(rest))
  {
    var n := c as int;
    var t := "\\u00" + [HexDigit(n / 16), HexDigit(n % 16)] + rest;
    assert t[0] == '\\' && t[1] == 'u' && t[2] == '0' && t[3] == '0';
    assert t[4] == HexDigit(n / 16) && t[5] == HexDigit(n % 16);
    assert t[6..] == rest;
    assert HexValue(HexDigit(n / 16)) == n / 16;
    assert HexValue(HexDigit(n % 16)) == n % 16;
  }

  /** A character other than a backslash is read back as itself. */
  lemma UnescapeLiteral(c: char, rest: string)
    requires c != '\\'
    ensures Unescape([c] + rest) == Prepend(c, Unescape(rest))
  {
    assert ([c] + rest)[1..] == rest;
  }

  /** A backslash and a one-letter escape are read back as the character it names. */
  lemma UnescapeShort(x: char, rest: string)
    requires ShortEscape(x).Some?
    ensures Unescape(['\\', x] + rest) == Prepend(ShortEscape(x).value, Unescape(rest))
  {
    assert (['\\', x] + rest)[2..] == rest;
  }

  /** Reading back one written character and then the rest. */
  lemma UnescapeEscapeChar(escapeSlashes: bool, c: char, rest: string)
    ensures Unescape(EscapeChar(escapeSlashes, c) + rest) == Prepend(c, Unescape(rest))
  {
    var e := EscapeChar(escapeSlashes, c);
    if e == [c] {
      UnescapeEscapedLiteral(escapeSlashes, c, rest);
    } else if |e| == 2 {
      UnescapeEscapedShort(escapeSlashes, c, rest);
    } else {
      UnescapeEscapedUnicode(escapeSlashes, c, rest);
    }
  }

  lemma UnescapeEscapedLiteral(escapeSlashes: bool, c: char, rest: string)
    requires EscapeChar(escapeSlashes, c) == [c]
    ensures Unescape(EscapeChar(escapeSlashes, c) + rest) == Prepend(c, Unescape(rest))
  {
    assert c != '\\';
    UnescapeLiteral(c, rest);
  }

  lemma UnescapeEscapedShort(escapeSlashes: bool, c: char, rest: string)
    requires |EscapeChar(escapeSlashes, c)| == 2
    ensures Unescape(EscapeChar(escapeSlashes, c) + rest) == Prepend(c, Unescape(rest))
  {
    var e := EscapeChar(escapeSlashes, c);
    ShortEscapeInverse(escapeSlashes, c);
    assert e == ['\\', e[1]];
    UnescapeShort(e[1], rest);
  }

  lemma UnescapeEscapedUnicode(escapeSlashes: bool, c: char, rest: string)
    requires EscapeChar(escapeSlashes, c) != [c] && |EscapeChar(escapeSlashes, c)| != 2
    ensures Unescape(EscapeChar(escapeSlashes, c) + rest) == Prepend(c, Unescape(rest))
  {
    assert (c as int) < 0x20;
    assert EscapeChar(escapeSlashes, c) == "\\u00" + [HexDigit((c as int) / 16), HexDigit((c as int) % 16)];
    UnescapeUnicode(c, rest);
  }

  /** Every string is read back exactly from what the writer makes of it, with or without escaped slashes. */
  lemma {:induction false} UnescapeEscape(escapeSlashes: bool, s: string)
    ensures Unescape(Escape(escapeSlashes, s)) == Some(s)
  {
    if |s| > 0 {
      UnescapeEscape(escapeSlashes, s[1..]);
      UnescapeEscapeChar(escapeSlashes, s[0], Escape(escapeSlashes, s[1..]));
      assert [s[0]] + s[1..] == s;
    }
  }

  /** The writer never shortens a string. */
  lemma {:induction false} EscapeLength(escapeSlashes: bool, s: string)
    ensures |Escape(escapeSlashes, s)| >= |s|
    ensures |Escape(escapeSlashes, s)| == |s| <==> Plain(s) && (escapeSlashes ==> '/' !in s)
  {
    if |s| > 0 {
      EscapeLength(escapeSlashes, s[1..]);
      if Plain(s) && (escapeSlashes ==> '/' !in s) {
        assert !MustEscape(s[0]);
        assert Plain(s[1..]) by {
          forall k | 0 <= k < |s[1..]| ensures !MustEscape(s[1..][k]) {
            assert s[1..][k] == s[k + 1];
          }
        }
      } else if !Plain(s) {
        var k :| 0 <= k < |s| && MustEscape(s[k]);
        if k > 0 {
          assert s[1..][k - 1] == s[k];
        }
      } else {
        var k :| 0 <= k < |s| && s[k] == '/';
        if k > 0 {
          assert s[1..][k - 1] == s[k];
        }
      }
    }
  }

  /**
   * A string is written character for character exactly when it has nothing
   * to escape; a `/` in it is written as itself exactly when slashes are not
   * escaped.
   */
  lemma {:induction false} EscapeIdentity(escapeSlashes: bool, s: string)
    ensures Escape(escapeSlashes, s) == s <==> Plain(s) && (escapeSlashes ==> '/' !in s)
  {
    EscapeLength(escapeSlashes, s);
    if Plain(s) && (escapeSlashes ==> '/' !in s) {
      PlainEscapesToItself(escapeSlashes, s);
    }
  }

  lemma {:induction false} PlainEscapesToItself(escapeSlashes: bool, s: string)
    requires Plain(s) && (escapeSlashes ==> '/' !in s)
    ensures Escape(escapeSlashes, s) == s
  {
    if |s| > 0 {
      assert s[0] in s;
      assert Plain(s[1..]) by {
        forall k | 0 <= k < |s[1..]| ensures !MustEscape(s[1..][k]) {
          assert s[1..][k] == s[k + 1];
        }
      }
      PlainEscapesToItself(escapeSlashes, s[1..]);
      assert [s[0]] + s[1..] == s;
    }
  }

  /** A JSON string literal. */
  function Quote(escapeSlashes: bool, s: string): string {
    "\"" + Escape(escapeSlashes, s) + "\""
  }

  // ---------------------------------------------------------------------------
  // Integers

  function DecimalDigit(n: nat): char
    requires n < 10
  {
    "0123456789"[n]
  }

  function NatToString(n: nat): string
    decreases n
  {
    if n < 10 then [DecimalDigit(n)] else NatToString(n / 10) + [DecimalDigit(n % 10)]
  }

  /** How an `Int` is written: decimal digits, with a leading `-` when negative. */
  function IntToString(i: int): string {
    if i < 0 then "-" + NatToString(-i) else NatToString(i)
  }

  /** Reads decimal digits back. */
  function ParseNat(s: string): int
    decreases |s|
  {
    if |s| == 0 then 0
    else ParseNat(s[..|s| - 1]) * 10 + ((s[|s| - 1] as int) - ('0' as int))
  }

  function ParseInt(s: string): int {
    if 0 < |s| && s[0] == '-' then -ParseNat(s[1..]) else ParseNat(s)
  }

  lemma {:induction false} ParseNatToString(n: nat)
    ensures ParseNat(NatToString(n)) == n
    ensures 0 < |NatToString(n)| && NatToString(n)[0] != '-'
    decreases n
  {
    if n >= 10 {
      ParseNatToString(n / 10);
      var s := NatToString(n);
      assert s[..|s| - 1] == NatToString(n / 10);
    }
  }

  /** Every integer is read back from its decimal text. */
  lemma ParseIntToString(i: int)
    ensures ParseInt(IntToString(i)) == i
  {
    var t := IntToString(i);
    if i < 0 {
      ParseNatToString(-i);
      assert t[0] == '-' && t[1..] == NatToString(-i);
    } else {
      ParseNatToString(i);
      assert t == NatToString(i);
    }
  }

  // ---------------------------------------------------------------------------
  // Trees

  /** Every real in `j` can be printed. */
  predicate Encodable(opts: WriterOptions, j: Json) {
    match j
    case JInt(_) => true
    case JReal(r) => opts.formatReal(r).Some?
    case JString(_) => true
    case JArray(items) => forall k | 0 <= k < |items| :: Encodable(opts, items[k])
    case JObject(members) => forall k | 0 <= k < |members| :: Encodable(opts, members[k].value)
  }

  /** All parts present, or `None`. */
  function Collect(parts: seq<Option<string>>): (r: Option<seq<string>>)
    ensures r.Some? <==> forall k :: 0 <= k < |parts| ==> parts[k].Some?
    ensures r.Some? ==> |r.value| == |parts| && forall k :: 0 <= k < |parts| ==> r.value[k] == parts[k].value
  {
    if |parts| == 0 then Some([])
    else
      var rest := Collect(parts[1..]);
      if parts[0].Some? && rest.Some? then Some([parts[0].value] + rest.value)
      else
        assert parts[0].Some? ==> exists k :: 0 <= k < |parts[1..]| && parts[1..][k].None?;
        None
  }

  function JoinComma(parts: seq<string>): string {
    if |parts| == 0 then ""
    else if |parts| == 1 then parts[0]
    else parts[0] + "," + JoinComma(parts[1..])
  }

  function WriteMember(opts: WriterOptions, key: string, value: Option<string>): Option<string> {
    if value.Some? then Some(Quote(opts.escapeSlashes, key) + ":" + value.value) else None
  }

  /** The JSON text of `j`, or `None` when a real in it cannot be printed. */
  function Write(opts: WriterOptions, j: Json): Option<string> {
    match j
    case JInt(i) => Some(IntToString(i))
    case JReal(r) => opts.formatReal(r)
    case JString(s) => Some(Quote(opts.escapeSlashes, s))
    case JArray(items) =>
      var parts := Collect(seq(|items|, k requires 0 <= k < |items| => Write(opts, items[k])));
      if parts.Some? then Some("[" + JoinComma(parts.value) + "]") else None
    case JObject(members) =>
      var parts := Collect(seq(|members|, k requires 0 <= k < |members| =>
                                 WriteMember(opts, members[k].key, Write(opts, members[k].value))));
      if parts.Some? then Some("{" + JoinComma(parts.value) + "}") else None
  }

  /** The text of an object whose member values are written as `texts`. */
  lemma WriteObject(opts: WriterOptions, members: seq<Member>, texts: seq<string>)
    requires |texts| == |members|
    requires forall k :: 0 <= k < |members| ==> Write(opts, members[k].value) == Some(texts[k])
    ensures Write(opts, JObject(members))
         == Some("{" + JoinComma(seq(|members|, k requires 0 <= k < |members| =>
                                       Quote(opts.escapeSlashes, members[k].key) + ":" + texts[k])) + "}")
  {
    var parts := seq(|members|, k requires 0 <= k < |members| =>
                       WriteMember(opts, members[k].key, Write(opts, members[k].value)));
    var expected := seq(|members|, k requires 0 <= k < |members| =>
                          Quote(opts.escapeSlashes, members[k].key) + ":" + texts[k]);
    forall k | 0 <= k < |members| ensures parts[k] == Some(expected[k]) {
    }
    var collected := Collect(parts).value;
    assert |collected| == |expected|;
    assert forall k :: 0 <= k < |expected| ==> collected[k] == expected[k];
    assert collected == expected;
  }

  /** An object of three string members, written out. */
  lemma WriteStringObject(opts: WriterOptions, a: string, x: string, b: string, y: string, c: string, z: string)
    ensures Write(opts, JObject([Member(a, JString(x)), Member(b, JString(y)), Member(c, JString(z))]))
         == Some("{" + JoinComma([Quote(opts.escapeSlashes, a) + ":" + Quote(opts.escapeSlashes, x),
                                  Quote(opts.escapeSlashes, b) + ":" + Quote(opts.escapeSlashes, y),
                                  Quote(opts.escapeSlashes, c) + ":" + Quote(opts.escapeSlashes, z)]) + "}")
  {
    var members := [Member(a, JString(x)), Member(b, JString(y)), Member(c, JString(z))];
    var texts := [Quote(opts.escapeSlashes, x), Quote(opts.escapeSlashes, y), Quote(opts.escapeSlashes, z)];
    WriteObject(opts, members, texts);
    var parts := seq(|members|, k requires 0 <= k < |members| => Quote(opts.escapeSlashes, members[k].key) + ":" + texts[k]);
    assert parts == [Quote(opts.escapeSlashes, a) + ":" + Quote(opts.escapeSlashes, x),
                     Quote(opts.escapeSlashes, b) + ":" + Quote(opts.escapeSlashes, y),
                     Quote(opts.escapeSlashes, c) + ":" + Quote(opts.escapeSlashes, z)];
  }

  lemma JoinCommaThree(a: string, b: string, c: string)
    ensures JoinComma([a, b, c]) == a + "," + b + "," + c
  {
    assert [a, b, c][1..] == [b, c];
    assert [b, c][1..] == [c];
    assert JoinComma([c]) == c;
    assert JoinComma([b, c]) == b + "," + c;
  }

  /** The writer fails exactly when some real in the tree cannot be printed. */
  lemma {:induction false} WriteSucceedsIffEncodable(opts: WriterOptions, j: Json)
    ensures Write(opts, j).Some? <==> Encodable(opts, j)
  {
    match j
    case JInt(_) =>
    case JReal(_) =>
    case JString(_) =>
    case JArray(items) =>
      var parts := seq(|items|, k requires 0 <= k < |items| => Write(opts, items[k]));
      forall k | 0 <= k < |items| ensures parts[k].Some? <==> Encodable(opts, items[k]) {
        WriteSucceedsIffEncodable(opts, items[k]);
      }
    case JObject(members) =>
      var parts := seq(|members|, k requires 0 <= k < |members| =>
                         WriteMember(opts, members[k].key, Write(opts, members[k].value)));
      forall k | 0 <= k < |members| ensures parts[k].Some? <==> Encodable(opts, members[k].value) {
        WriteSucceedsIffEncodable(opts, members[k].value);
      }
  }

  /** A tree without reals is always written. */
  predicate Integral(j: Json) {
    match j
    case JReal(_) => false
    case JArray(items) => forall k | 0 <= k < |items| :: Integral(items[k])
    case JObject(members) => forall k | 0 <= k < |members| :: Integral(members[k].value)
    case _ => true
  }

  lemma {:induction false} IntegralIsEncodable(opts: WriterOptions, j: Json)
    requires Integral(j)
    ensures Encodable(opts, j)
  {
    match j
    case JInt(_) =>
    case JReal(_) =>
    case JString(_) =>
    case JArray(items) =>
      forall k | 0 <= k < |items| ensures Encodable(opts, items[k]) {
        IntegralIsEncodable(opts, items[k]);
      }
    case JObject(members) =>
      forall k | 0 <= k < |members| ensures Encodable(opts, members[k].value) {
        IntegralIsEncodable(opts, members[k].value);
      }
  }
}
