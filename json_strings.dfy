/** JSON string literals: the text `JSON.stringify` writes for a string value
    (QuoteJSONString, section 25.5.2.3 of ECMAScript 2024) and the reading of such a literal
    back, as `JSON.parse` does (section 7 of RFC 8259). Characters are Unicode scalar
    values, so the lone-surrogate escapes of QuoteJSONString do not arise. */
module JsonStrings {
  import opened Common

  /** A lower-case hexadecimal digit, as QuoteJSONString writes it. */
  function HexDigit(n: nat): (c: char)
    requires n < 16
  {
    if n < 10 then ('0' as int + n) as char else ('a' as int + n - 10) as char
  }

  /** The value of a hexadecimal digit of either case. */
  function HexValue(c: char): (r: Option<nat>)
    ensures r.Some? ==> r.value < 16
  {
    if '0' <= c <= '9' then Some(c as int - '0' as int)
    else if 'a' <= c <= 'f' then Some(c as int - 'a' as int + 10)
    else if 'A' <= c <= 'F' then Some(c as int - 'A' as int + 10)
    else None
  }

  lemma HexRoundTrip(n: nat)
    requires n < 16
    ensures HexValue(HexDigit(n)) == Some(n)
  {
  }

  const Backspace: char := 8 as char
  const Tab: char := 9 as char
  const LineFeed: char := 10 as char
  const FormFeed: char := 12 as char
  const CarriageReturn: char := 13 as char

  /** How QuoteJSONString writes one character: the quote, the backslash and the five
      named control characters get two-character escapes, every other control character a
      `\u00xx` escape, and all else stands for itself. */
  function EscapeChar(c: char): (r: string)
    ensures |r| >= 1 && r[0] != '"'
    ensures r == [c] <==> c != '"' && c != '\\' && c as int >= 0x20
  {
    if c == '"' then ['\\', '"']
    else if c == '\\' then ['\\', '\\']
    else if c == Backspace then ['\\', 'b']
    else if c == Tab then ['\\', 't']
    else if c == LineFeed then ['\\', 'n']
    else if c == FormFeed then ['\\', 'f']
    else if c == CarriageReturn then ['\\', 'r']
    else if c as int < 0x20 then ['\\', 'u', '0', '0', HexDigit(c as int / 16), HexDigit(c as int % 16)]
    else [c]
  }

  /** The escaped text of `s[i..]`. */
  function EscapedFrom(s: string, i: nat): (r: string)
    requires i <= |s|
    decreases |s| - i
  {
    if i == |s| then "" else EscapeChar(s[i]) + EscapedFrom(s, i + 1)
  }

  /** `JSON.stringify(s)` for a string `s`. */
  function Quote(s: string): (r: string)
    ensures |r| >= 2 && r[0] == '"' && r[|r| - 1] == '"'
  {
    ['"'] + EscapedFrom(s, 0) + ['"']
  }

  /** A line feed is written as `\n`, so no escaped text holds a raw one. */
  lemma {:induction false} EscapedHasNoLineFeed(s: string, i: nat)
    requires i <= |s|
    ensures LineFeed !in EscapedFrom(s, i)
    decreases |s| - i
  {
    if i < |s| {
      EscapedHasNoLineFeed(s, i + 1);
      assert LineFeed !in EscapeChar(s[i]);
      assert EscapedFrom(s, i) == EscapeChar(s[i]) + EscapedFrom(s, i + 1);
    }
  }

  /** A string literal is one line, whatever the string holds. */
  lemma QuoteHasNoLineFeed(s: string)
    ensures LineFeed !in Quote(s)
  {
    EscapedHasNoLineFeed(s, 0);
  }

  // ===========================================================================
  // Reading a literal back

  /** One character of a literal's body at index `j`, with the index just past it: a plain
      character or an escape sequence. None at the closing quote, at a raw control character,
      at a malformed escape, at a `\u` escape naming a surrogate, and at the end of the text. */
  function ReadChar(t: string, j: nat): (r: Option<(char, nat)>)
    ensures r.Some? ==> j < r.value.1 <= |t|
  {
    if j >= |t| || t[j] == '"' || t[j] as int < 0x20 then None
    else if t[j] != '\\' then Some((t[j], j + 1))
    else if j + 1 >= |t| then None
    else
      var e := t[j + 1];
      if e == '"' || e == '\\' || e == '/' then Some((e, j + 2))
      else if e == 'b' then Some((Backspace, j + 2))
      else if e == 't' then Some((Tab, j + 2))
      else if e == 'n' then Some((LineFeed, j + 2))
      else if e == 'f' then Some((FormFeed, j + 2))
      else if e == 'r' then Some((CarriageReturn, j + 2))
      else if e == 'u' && j + 6 <= |t| then
        match (HexValue(t[j + 2]), HexValue(t[j + 3]), HexValue(t[j + 4]), HexValue(t[j + 5]))
        case (Some(d1), Some(d2), Some(d3), Some(d4)) =>
          var v := ((d1 * 16 + d2) * 16 + d3) * 16 + d4;
          if 0xD800 <= v < 0xE000 then None else Some((v as char, j + 6))
        case _ => None
      else None
  }

  /** The body of a literal from `j` to its closing quote, appended to `acc`, with the index
      just past the closing quote. */
  function ReadBody(t: string, j: nat, acc: string): Option<(string, nat)>
    requires j <= |t|
    decreases |t| - j
  {
    if j < |t| && t[j] == '"' then Some((acc, j + 1))
    else
      match ReadChar(t, j)
      case None => None
      case Some((c, k)) => ReadBody(t, k, acc + [c])
  }

  /** The string literal starting at index `j` of `t`, with the index just past it. */
  function ReadString(t: string, j: nat): Option<(string, nat)> {
    if j < |t| && t[j] == '"' then ReadBody(t, j + 1, "") else None
  }

  // ===========================================================================
  // Round trip

  lemma OccursSplit(t: string, j: nat, x: string, y: string)
    requires OccursAt(t, j, x + y)
    ensures OccursAt(t, j, x) && OccursAt(t, j + |x|, y)
  {
    forall k | 0 <= k < |x|
      ensures t[j + k] == x[k]
    {
      assert (x + y)[k] == x[k];
    }
    forall k | 0 <= k < |y|
      ensures t[j + |x| + k] == y[k]
    {
      assert (x + y)[|x| + k] == y[k];
    }
  }

  /** Each character's escape reads back as that character. */
  lemma ReadEscapedChar(t: string, j: nat, c: char)
    requires OccursAt(t, j, EscapeChar(c))
    ensures j < |t| && t[j] != '"'
    ensures ReadChar(t, j) == Some((c, j + |EscapeChar(c)|))
  {
    var r := EscapeChar(c);
    assert t[j] == r[0];
    if |r| > 1 {
      assert t[j + 1] == r[1];
    }
    if c != '"' && c != '\\' && c as int < 0x20 && c != Backspace && c != Tab && c != LineFeed &&
       c != FormFeed && c != CarriageReturn {
      var n := c as int;
      assert t[j + 2] == r[2] == '0' && t[j + 3] == r[3] == '0';
      assert t[j + 4] == r[4] == HexDigit(n / 16) && t[j + 5] == r[5] == HexDigit(n % 16);
      HexRoundTrip(n / 16);
      HexRoundTrip(n % 16);
    }
  }

  /** Reading characters from index `j` of `t` yields `s[i..]`, one `ReadChar` each, none
      of them at a quote, and stops at index `end`. */
  predicate ReadsAs(t: string, j: nat, s: string, i: nat, end: nat)
    requires i <= |s|
    decreases |s| - i
  {
    if i == |s| then j == end
    else
      j < |t| && t[j] != '"' && ReadChar(t, j).Some? && ReadChar(t, j).value.0 == s[i] &&
      ReadsAs(t, ReadChar(t, j).value.1, s, i + 1, end)
  }

  lemma ReadsAsCons(t: string, j: nat, s: string, i: nat, k: nat, end: nat)
    requires i < |s| && j < |t| && t[j] != '"' && ReadChar(t, j) == Some((s[i], k))
    requires ReadsAs(t, k, s, i + 1, end)
    ensures ReadsAs(t, j, s, i, end)
  {
  }

  /** `x` lies in `t` from index `j`; unlike `OccursAt`, only an index into `x` brings the
      fact to bear, which keeps the proofs below from chasing every read of `t`. */
  predicate Laid(t: string, j: nat, x: string) {
    j + |x| <= |t| && forall k {:trigger x[k]} :: 0 <= k < |x| ==> t[j + k] == x[k]
  }

  /** Laid-out escapes of `s[i..]` start with the escape of `s[i]`, and the others follow. */
  lemma LaidFirst(t: string, j: nat, s: string, i: nat)
    requires i < |s| && Laid(t, j, EscapedFrom(s, i))
    ensures |EscapedFrom(s, i)| == |EscapeChar(s[i])| + |EscapedFrom(s, i + 1)|
    ensures OccursAt(t, j, EscapeChar(s[i]))
    ensures Laid(t, j + |EscapeChar(s[i])|, EscapedFrom(s, i + 1))
  {
    var x := EscapeChar(s[i]);
    var rest := EscapedFrom(s, i + 1);
    assert EscapedFrom(s, i) == x + rest;
    OccursSplit(t, j, x, rest);
  }

  /** The first escape of `s[i..]` reads back as `s[i]`, ending at `k`, and the other
      escapes follow it from there. */
  lemma EscapeReadStep(t: string, j: nat, s: string, i: nat) returns (k: nat)
    requires i < |s| && Laid(t, j, EscapedFrom(s, i))
    ensures k + |EscapedFrom(s, i + 1)| == j + |EscapedFrom(s, i)|
    ensures j < |t| && t[j] != '"' && ReadChar(t, j) == Some((s[i], k))
    ensures Laid(t, k, EscapedFrom(s, i + 1))
  {
    LaidFirst(t, j, s, i);
    ReadEscapedChar(t, j, s[i]);
    k := j + |EscapeChar(s[i])|;
  }

  /** Laid-out escapes of `s[i..]` read back as `s[i..]`, ending where the escapes end. */
  lemma {:induction false} EscapesRead(t: string, j: nat, s: string, i: nat)
    requires i <= |s| && Laid(t, j, EscapedFrom(s, i))
    ensures ReadsAs(t, j, s, i, j + |EscapedFrom(s, i)|)
    decreases |s| - i
  {
    if i < |s| {
      var k := EscapeReadStep(t, j, s, i);
      EscapesRead(t, k, s, i + 1);
      ReadsAsCons(t, j, s, i, k, j + |EscapedFrom(s, i)|);
    }
  }

  /** Characters that read as `s[i..]` up to a closing quote make the body `s`. */
  lemma {:induction false} ReadEscapedBody(t: string, j: nat, s: string, i: nat, end: nat)
    requires i <= |s| && ReadsAs(t, j, s, i, end)
    requires end < |t| && t[end] == '"'
    ensures ReadBody(t, j, s[..i]) == Some((s, end + 1))
    decreases |s| - i
  {
    if i == |s| {
      assert s[..i] == s;
    } else {
      assert s[..i] + [s[i]] == s[..i + 1];
      ReadEscapedBody(t, ReadChar(t, j).value.1, s, i + 1, end);
    }
  }

  /** A literal in `t` from `j`: its opening quote, its laid-out escapes and its closing quote
      at `end`. */
  lemma QuoteParts(t: string, j: nat, s: string) returns (end: nat)
    requires OccursAt(t, j, Quote(s))
    ensures end == j + 1 + |EscapedFrom(s, 0)| && end + 1 == j + |Quote(s)|
    ensures j < end < |t| && t[j] == '"' && t[end] == '"'
    ensures Laid(t, j + 1, EscapedFrom(s, 0))
  {
    var body := EscapedFrom(s, 0);
    assert Quote(s) == ['"'] + body + ['"'];
    OccursSplit(t, j, ['"'] + body, ['"']);
    OccursSplit(t, j, ['"'], body);
    assert t[j] == '"';
    end := j + 1 + |body|;
    assert t[end] == '"';
  }

  /** What `JSON.stringify` writes for a string, `JSON.parse` reads back, ending exactly
      where the literal ends, whatever follows it. */
  lemma ReadQuoted(t: string, j: nat, s: string)
    requires OccursAt(t, j, Quote(s))
    ensures ReadString(t, j) == Some((s, j + |Quote(s)|))
  {
    var end := QuoteParts(t, j, s);
    EscapesRead(t, j + 1, s, 0);
    ReadEscapedBody(t, j + 1, s, 0, end);
    assert s[..0] == "";
  }
}
