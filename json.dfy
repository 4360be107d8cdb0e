/**
 * `JSON.stringify` of a list of strings, as used for the `feature_columns`
 * form field, together with a decoder for exactly that shape. The round-trip
 * lemma says the receiving side reads back the very list that was sent.
 */
module Json {
  import opened Wrappers
  import opened Text

  const HexDigits: string := "0123456789abcdef"

  /** How `JSON.stringify` writes one character inside a string literal. */
  function EscapeChar(c: char): string {
    if c == '"' then "\\\""
    else if c == '\\' then "\\\\"
    else if c == '\U{8}' then "\\b"
    else if c == '\t' then "\\t"
    else if c == '\n' then "\\n"
    else if c == '\U{C}' then "\\f"
    else if c == '\r' then "\\r"
    else if c < ' ' then "\\u00" + [HexDigits[c as int / 16], HexDigits[c as int % 16]]
    else [c]
  }

  function EscapeString(s: string): string {
    if s == [] then "" else EscapeChar(s[0]) + EscapeString(s[1..])
  }

  /** A JSON string literal. */
  function Quote(s: string): string {
    "\"" + EscapeString(s) + "\""
  }

  /** The comma-separated literals of a non-empty list. */
  function EncodeItems(xs: seq<string>): string
    requires xs != []
  {
    Quote(xs[0]) + if |xs| == 1 then "" else "," + EncodeItems(xs[1..])
  }

  /** `JSON.stringify(xs)` for an array of strings. */
  function StringifyList(xs: seq<string>): string {
    if xs == [] then "[]" else "[" + EncodeItems(xs) + "]"
  }

  // ---------------------------------------------------------------- decoding

  function HexValue(c: char): Option<int> {
    if '0' <= c <= '9' then Some(c as int - '0' as int)
    else if 'a' <= c <= 'f' then Some(c as int - 'a' as int + 10)
    else if 'A' <= c <= 'F' then Some(c as int - 'A' as int + 10)
    else None
  }

  /** The value of four hex digits. */
  function Hex4(t: string): Option<int>
    requires |t| == 4
  {
    match (HexValue(t[0]), HexValue(t[1]), HexValue(t[2]), HexValue(t[3]))
    case (Some(a), Some(b), Some(c), Some(d)) => Some(((a * 16 + b) * 16 + c) * 16 + d)
    case _ => None
  }

  /** Reads the escape sequence at the front of `t`: the character and what follows. */
  function Unescape(t: string): (r: Option<(char, string)>)
    requires t != [] && t[0] == '\\'
    ensures r.Some? ==> |r.value.1| < |t|
  {
    if |t| < 2 then None
    else
      var e := t[1];
      if e == '"' then Some(('"', t[2..]))
      else if e == '\\' then Some(('\\', t[2..]))
      else if e == '/' then Some(('/', t[2..]))
      else if e == 'b' then Some(('\U{8}', t[2..]))
      else if e == 't' then Some(('\t', t[2..]))
      else if e == 'n' then Some(('\n', t[2..]))
      else if e == 'f' then Some(('\U{C}', t[2..]))
      else if e == 'r' then Some(('\r', t[2..]))
      else if e == 'u' && |t| >= 6 then
        match Hex4(t[2..6])
        case Some(v) =>
          if 0 <= v < 0xD800 || 0xE000 <= v < 0x11_0000 then Some((v as char, t[6..])) else None
        case None => None
      else None
  }

  /** Reads a string literal's body up to and including its closing quote. */
  function ParseBody(t: string): (r: Option<(string, string)>)
    ensures r.Some? ==> |r.value.1| < |t|
    decreases |t|
  {
    if t == [] then None
    else if t[0] == '"' then Some(("", t[1..]))
    else if t[0] == '\\' then
      match Unescape(t)
      case None => None
      case Some((c, rest)) =>
        match ParseBody(rest)
        case None => None
        case Some((s, after)) => Some(([c] + s, after))
    else if t[0] < ' ' then None
    else
      match ParseBody(t[1..])
      case None => None
      case Some((s, after)) => Some(([t[0]] + s, after))
  }

  /** Reads `"…"` items separated by commas up to the closing bracket, which must end the text. */
  function ParseItems(t: string): Option<seq<string>>
    decreases |t|
  {
    if t == [] || t[0] != '"' then None
    else
      match ParseBody(t[1..])
      case None => None
      case Some((s, rest)) =>
        if rest == "]" then Some([s])
        else if rest != [] && rest[0] == ',' then
          match ParseItems(rest[1..])
          case None => None
          case Some(more) => Some([s] + more)
        else None
  }

  /** Reads a JSON array of strings written without whitespace. */
  function ParseList(t: string): Option<seq<string>> {
    if t == "[]" then Some([])
    else if t != [] && t[0] == '[' then ParseItems(t[1..])
    else None
  }

  // ---------------------------------------------------------------- round trip

  lemma HexDigitValue(i: int)
    requires 0 <= i < 16
    ensures HexValue(HexDigits[i]) == Some(i)
  {
  }

  lemma EscapeCharRead(c: char, tail: string)
    ensures ParseBody(EscapeChar(c) + tail)
            == match ParseBody(tail)
               case None => None
               case Some((s, after)) => Some(([c] + s, after))
  {
    var t := EscapeChar(c) + tail;
    if c == '"' || c == '\\' || c == '\U{8}' || c == '\t' || c == '\n' || c == '\U{C}' || c == '\r' {
      assert t[0] == '\\' && t[2..] == tail;
    } else if c < ' ' {
      var hi, lo := c as int / 16, c as int % 16;
      HexDigitValue(0);
      HexDigitValue(hi);
      HexDigitValue(lo);
      assert t[0] == '\\' && t[1] == 'u';
      assert t[2..6] == ['0', '0', HexDigits[hi], HexDigits[lo]];
      assert Hex4(t[2..6]) == Some(c as int);
      assert t[6..] == tail;
    } else {
      assert t[0] == c && t[1..] == tail;
    }
  }

  lemma {:induction false} BodyRoundTrip(s: string, rest: string)
    ensures ParseBody(EscapeString(s) + "\"" + rest) == Some((s, rest))
  {
    if s == [] {
      assert EscapeString(s) + "\"" + rest == "\"" + rest;
    } else {
      var tail := EscapeString(s[1..]) + "\"" + rest;
      assert EscapeString(s) + "\"" + rest == EscapeChar(s[0]) + tail;
      BodyRoundTrip(s[1..], rest);
      EscapeCharRead(s[0], tail);
      assert [s[0]] + s[1..] == s;
    }
  }

  /** One item: a literal followed by what comes after it. */
  lemma ItemRead(x: string, after: string)
    ensures ParseItems(Quote(x) + after)
            == if after == "]" then Some([x])
               else if after != [] && after[0] == ',' then
                 match ParseItems(after[1..])
                 case None => None
                 case Some(more) => Some([x] + more)
               else None
  {
    var t := Quote(x) + after;
    assert t[0] == '"';
    assert t[1..] == EscapeString(x) + "\"" + after;
    BodyRoundTrip(x, after);
  }

  lemma {:induction false} ItemsRoundTrip(xs: seq<string>)
    requires xs != []
    ensures ParseItems(EncodeItems(xs) + "]") == Some(xs)
  {
    if |xs| == 1 {
      assert EncodeItems(xs) + "]" == Quote(xs[0]) + "]";
      ItemRead(xs[0], "]");
      assert xs == [xs[0]];
    } else {
      var after := "," + EncodeItems(xs[1..]) + "]";
      assert EncodeItems(xs) + "]" == Quote(xs[0]) + after;
      ItemRead(xs[0], after);
      assert after[1..] == EncodeItems(xs[1..]) + "]";
      ItemsRoundTrip(xs[1..]);
      assert [xs[0]] + xs[1..] == xs;
    }
  }

  /** Decoding what `JSON.stringify` produced gives back the list, element for element. */
  lemma ListRoundTrip(xs: seq<string>)
    ensures ParseList(StringifyList(xs)) == Some(xs)
  {
    if xs != [] {
      var t := StringifyList(xs);
      assert t[0] == '[' && t[1] == '"';
      assert t[1..] == EncodeItems(xs) + "]";
      ItemsRoundTrip(xs);
    }
  }
}
