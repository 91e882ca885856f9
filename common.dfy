/** Shared value types and the JavaScript string primitives the application relies on
    (trim, includes, startsWith, ASCII case mapping, integer printing, truthiness). */
module Common {

  datatype Option<+T> = None | Some(value: T)

  datatype Result<+R, +E> = Ok(value: R) | Err(error: E)

  /** A parsed JSON value as it arrives in a request body. Numbers are limited to integers. */
  datatype Json =
    | JNull
    | JBool(b: bool)
    | JNum(n: int)
    | JString(s: string)
    | JArray(items: seq<Json>)
    | JObject(fields: map<string, Json>)

  /** JavaScript truthiness of a JSON value: null, false, 0 and "" are falsy. */
  predicate JsonTruthy(j: Json) {
    match j
    case JNull => false
    case JBool(b) => b
    case JNum(n) => n != 0
    case JString(s) => s != ""
    case JArray(_) => true
    case JObject(_) => true
  }

  /** JavaScript truthiness of an optional string (`null`/`undefined` and "" are falsy). */
  predicate Truthy(o: Option<string>) {
    o.Some? && o.value != ""
  }

  // ---------------------------------------------------------------------------
  // Whitespace and String.prototype.trim

  /** The characters ECMAScript's WhiteSpace and LineTerminator productions accept. */
  predicate IsJsSpace(c: char) {
    var k := c as int;
    k == 0x09 || k == 0x0A || k == 0x0B || k == 0x0C || k == 0x0D || k == 0x20 ||
    k == 0xA0 || k == 0x1680 || (0x2000 <= k <= 0x200A) ||
    k == 0x2028 || k == 0x2029 || k == 0x202F || k == 0x205F || k == 0x3000 ||
    k == 0xFEFF
  }

  predicate AllSpace(s: string) {
    forall i :: 0 <= i < |s| ==> IsJsSpace(s[i])
  }

  /** The first index at or after `i` that is not white space, or the length. */
  function SkipSpaces(s: string, i: nat): (r: nat)
    requires i <= |s|
    ensures i <= r <= |s|
    decreases |s| - i
  {
    if i < |s| && IsJsSpace(s[i]) then SkipSpaces(s, i + 1) else i
  }

  /** The index just after the last non-space character before `j`, or 0. */
  function BackSpaces(s: string, j: nat): (r: nat)
    requires j <= |s|
    ensures r <= j
  {
    if j > 0 && IsJsSpace(s[j - 1]) then BackSpaces(s, j - 1) else j
  }

  /** The run SkipSpaces passes over is all white space, and it stops at the end or a non-space. */
  lemma {:induction false} SkipSpacesRun(s: string, i: nat)
    requires i <= |s|
    ensures forall k :: i <= k < SkipSpaces(s, i) ==> IsJsSpace(s[k])
    ensures SkipSpaces(s, i) == |s| || !IsJsSpace(s[SkipSpaces(s, i)])
    decreases |s| - i
  {
    if i < |s| && IsJsSpace(s[i]) {
      SkipSpacesRun(s, i + 1);
    }
  }

  /** The run BackSpaces passes over is all white space, and it stops at the start or a non-space. */
  lemma {:induction false} BackSpacesRun(s: string, j: nat)
    requires j <= |s|
    ensures forall k :: BackSpaces(s, j) <= k < j ==> IsJsSpace(s[k])
    ensures BackSpaces(s, j) == 0 || !IsJsSpace(s[BackSpaces(s, j) - 1])
  {
    if j > 0 && IsJsSpace(s[j - 1]) {
      BackSpacesRun(s, j - 1);
    }
  }

  /** `sub` occurs in `s` at position `k`. */
  predicate OccursAt(s: string, k: nat, sub: string) {
    k + |sub| <= |s| && forall j :: 0 <= j < |sub| ==> s[k + j] == sub[j]
  }

  /** String.prototype.trim: strips leading and trailing whitespace and nothing else. */
  function Trim(s: string): (r: string)
    ensures |r| <= |s|
  {
    var a := SkipSpaces(s, 0);
    var b := BackSpaces(s, |s|);
    if b <= a then [] else s[a..b]
  }

  /** When trim() keeps nothing, the forward scan ran to the end. */
  lemma TrimBounds(s: string)
    ensures BackSpaces(s, |s|) <= SkipSpaces(s, 0) ==> SkipSpaces(s, 0) == |s|
  {
    SkipSpacesRun(s, 0);
    BackSpacesRun(s, |s|);
  }

  /** What trim() keeps neither starts nor ends with white space. */
  lemma TrimEnds(s: string)
    ensures Trim(s) == [] || (!IsJsSpace(Trim(s)[0]) && !IsJsSpace(Trim(s)[|Trim(s)| - 1]))
  {
    SkipSpacesRun(s, 0);
    BackSpacesRun(s, |s|);
  }

  /** What trim() keeps is a piece of the string with only white space cut on each side. */
  lemma TrimIsSlice(s: string)
    ensures OccursAt(s, SkipSpaces(s, 0), Trim(s))
    ensures forall k :: 0 <= k < SkipSpaces(s, 0) ==> IsJsSpace(s[k])
    ensures forall k :: SkipSpaces(s, 0) + |Trim(s)| <= k < |s| ==> IsJsSpace(s[k])
  {
    SkipSpacesRun(s, 0);
    BackSpacesRun(s, |s|);
    TrimBounds(s);
  }

  /** trim() yields "" exactly when the string is all whitespace. */
  lemma TrimEmptyIffAllSpace(s: string)
    ensures Trim(s) == [] <==> AllSpace(s)
  {
    SkipSpacesRun(s, 0);
    TrimBounds(s);
  }

  /** An occurrence inside a middle part is an occurrence in the whole. */
  lemma OccursInside(p: string, x: string, q: string, k: nat, sub: string)
    requires OccursAt(x, k, sub)
    ensures OccursAt(p + x + q, |p| + k, sub)
  {
    forall j | 0 <= j < |sub|
      ensures (p + x + q)[|p| + k + j] == sub[j]
    {
      assert (p + x + q)[|p| + k + j] == x[k + j];
    }
  }

  /** An occurrence at the start stays at the start when more text follows. */
  lemma OccursAtStart(x: string, y: string, sub: string)
    requires OccursAt(x, 0, sub)
    ensures OccursAt(x + y, 0, sub)
  {
    assert forall j :: 0 <= j < |sub| ==> (x + y)[j] == x[j];
  }

  /** trim() never cuts into a piece that starts and ends with a non-space character. */
  lemma TrimKeepsInner(s: string, k: nat, sub: string)
    requires OccursAt(s, k, sub) && |sub| > 0
    requires !IsJsSpace(sub[0]) && !IsJsSpace(sub[|sub| - 1])
    ensures SkipSpaces(s, 0) <= k && k + |sub| <= BackSpaces(s, |s|)
    ensures OccursAt(Trim(s), k - SkipSpaces(s, 0), sub)
  {
    SkipSpacesRun(s, 0);
    BackSpacesRun(s, |s|);
    assert s[k] == sub[0];
    assert s[k + |sub| - 1] == sub[|sub| - 1];
  }

  /** A piece at the very start that starts and ends with a non-space character still
      starts the trimmed string. */
  lemma TrimKeepsHead(s: string, sub: string)
    requires OccursAt(s, 0, sub) && |sub| > 0
    requires !IsJsSpace(sub[0]) && !IsJsSpace(sub[|sub| - 1])
    ensures StartsWith(Trim(s), sub)
  {
    TrimKeepsInner(s, 0, sub);
    assert Trim(s)[..|sub|] == sub;
  }

  /** When only white space follows such a piece, trim() ends exactly with it. */
  lemma TrimKeepsTail(s: string, k: nat, sub: string)
    requires OccursAt(s, k, sub) && |sub| > 0
    requires !IsJsSpace(sub[0]) && !IsJsSpace(sub[|sub| - 1])
    requires forall j :: k + |sub| <= j < |s| ==> IsJsSpace(s[j])
    ensures EndsWith(Trim(s), sub)
  {
    TrimKeepsInner(s, k, sub);
    BackSpacesRun(s, |s|);
    assert BackSpaces(s, |s|) == k + |sub|;
  }

  // ---------------------------------------------------------------------------
  // Prefix and substring tests

  predicate StartsWith(s: string, prefix: string) {
    |prefix| <= |s| && s[..|prefix|] == prefix
  }

  predicate EndsWith(s: string, suffix: string) {
    |suffix| <= |s| && OccursAt(s, |s| - |suffix|, suffix)
  }

  /** `sub` occurs in `s` at some position from `k` on. */
  predicate ContainsFrom(s: string, sub: string, k: nat)
    requires k <= |s|
    decreases |s| - k
  {
    OccursAt(s, k, sub) || (k < |s| && ContainsFrom(s, sub, k + 1))
  }

  /** String.prototype.includes. */
  predicate Contains(s: string, sub: string) {
    ContainsFrom(s, sub, 0)
  }

  lemma {:induction false} ContainsFromAt(s: string, sub: string, k: nat, i: nat)
    requires k <= i && OccursAt(s, i, sub)
    ensures ContainsFrom(s, sub, k)
    decreases i - k
  {
    if k < i {
      ContainsFromAt(s, sub, k + 1, i);
    }
  }

  lemma {:induction false} ContainsFromWitness(s: string, sub: string, k: nat) returns (i: nat)
    requires k <= |s| && ContainsFrom(s, sub, k)
    ensures k <= i && OccursAt(s, i, sub)
    decreases |s| - k
  {
    if OccursAt(s, k, sub) {
      i := k;
    } else {
      i := ContainsFromWitness(s, sub, k + 1);
    }
  }

  /** includes() holds exactly when the substring occurs at some position. */
  lemma ContainsIffOccurs(s: string, sub: string)
    ensures Contains(s, sub) <==> exists i: nat :: OccursAt(s, i, sub)
  {
    if Contains(s, sub) {
      var i := ContainsFromWitness(s, sub, 0);
    }
    if i: nat :| OccursAt(s, i, sub) {
      ContainsFromAt(s, sub, 0, i);
    }
  }

  /** A piece with non-space ends that opens a middle part survives the trim of the whole. */
  lemma TrimContainsInner(p: string, x: string, q: string, sub: string)
    requires OccursAt(x, 0, sub) && |sub| > 0
    requires !IsJsSpace(sub[0]) && !IsJsSpace(sub[|sub| - 1])
    ensures Contains(Trim(p + x + q), sub)
  {
    var s := p + x + q;
    OccursInside(p, x, q, 0, sub);
    TrimKeepsInner(s, |p|, sub);
    ContainsFromAt(Trim(s), sub, 0, |p| - SkipSpaces(s, 0));
  }

  lemma ContainsInMiddle(a: string, sub: string, b: string)
    ensures Contains(a + sub + b, sub)
  {
    var s := a + sub + b;
    assert OccursAt(s, |a|, sub);
    ContainsFromAt(s, sub, 0, |a|);
  }

  // ---------------------------------------------------------------------------
  // String.prototype.split with a one-character separator, and Array.prototype.join

  /** The pieces of `s[start..]`, cut at every `sep` from index `i` on. */
  function SplitFrom(s: string, sep: char, start: nat, i: nat): (r: seq<string>)
    requires start <= i <= |s|
    ensures |r| >= 1
    decreases |s| - i
  {
    if i == |s| then [s[start..]]
    else if s[i] == sep then [s[start..i]] + SplitFrom(s, sep, i + 1, i + 1)
    else SplitFrom(s, sep, start, i + 1)
  }

  /** `s.split(sep)`: always at least one piece; "" gives [""]. */
  function Split(s: string, sep: char): seq<string> {
    SplitFrom(s, sep, 0, 0)
  }

  /** `pieces.join(sep)`. */
  function Join(pieces: seq<string>, sep: char): string
    requires |pieces| >= 1
  {
    if |pieces| == 1 then pieces[0] else pieces[0] + [sep] + Join(pieces[1..], sep)
  }

  lemma {:induction false} SplitFromFacts(s: string, sep: char, start: nat, i: nat)
    requires start <= i <= |s|
    requires forall k :: start <= k < i ==> s[k] != sep
    ensures Join(SplitFrom(s, sep, start, i), sep) == s[start..]
    ensures forall p :: p in SplitFrom(s, sep, start, i) ==> sep !in p
    decreases |s| - i
  {
    if i == |s| {
      assert forall k :: 0 <= k < |s[start..]| ==> s[start..][k] == s[start + k];
    } else if s[i] == sep {
      var head := s[start..i];
      var rest := SplitFrom(s, sep, i + 1, i + 1);
      SplitFromFacts(s, sep, i + 1, i + 1);
      assert forall k :: 0 <= k < |head| ==> head[k] == s[start + k];
      assert SplitFrom(s, sep, start, i) == [head] + rest;
      assert ([head] + rest)[1..] == rest;
      assert s[start..] == head + [sep] + s[i + 1..];
    } else {
      SplitFromFacts(s, sep, start, i + 1);
    }
  }

  /** Joining the pieces gives the string back, and no piece holds a separator: the pieces
      are exactly the text between separators. */
  lemma SplitJoinRoundTrip(s: string, sep: char)
    ensures Join(Split(s, sep), sep) == s
    ensures forall p :: p in Split(s, sep) ==> sep !in p
  {
    SplitFromFacts(s, sep, 0, 0);
    assert s[0..] == s;
  }

  /** Cutting `p + y` past the prefix `p` cuts `y` alone. */
  lemma {:induction false} SplitFromShift(p: string, y: string, sep: char, a: nat, b: nat)
    requires a <= b <= |y|
    ensures SplitFrom(p + y, sep, |p| + a, |p| + b) == SplitFrom(y, sep, a, b)
    decreases |y| - b
  {
    var t := p + y;
    if b == |y| {
      assert t[|p| + a..] == y[a..];
    } else if y[b] == sep {
      assert t[|p| + b] == sep;
      assert t[|p| + a..|p| + b] == y[a..b];
      SplitFromShift(p, y, sep, b + 1, b + 1);
    } else {
      assert t[|p| + b] == y[b];
      SplitFromShift(p, y, sep, a, b + 1);
    }
  }

  /** A stretch without separators does not change where the next cut falls. */
  lemma {:induction false} SplitFromSkip(s: string, sep: char, start: nat, i: nat, j: nat)
    requires start <= i <= j <= |s|
    requires forall k :: i <= k < j ==> s[k] != sep
    ensures SplitFrom(s, sep, start, i) == SplitFrom(s, sep, start, j)
    decreases j - i
  {
    if i < j {
      SplitFromSkip(s, sep, start, i + 1, j);
    }
  }

  /** A piece without separators, followed by a separator, is the first piece. */
  lemma SplitCons(x: string, sep: char, y: string)
    requires sep !in x
    ensures Split(x + [sep] + y, sep) == [x] + Split(y, sep)
  {
    var t := x + [sep] + y;
    assert forall k :: 0 <= k < |x| ==> t[k] == x[k];
    SplitFromSkip(t, sep, 0, 0, |x|);
    assert t[|x|] == sep;
    assert t[0..|x|] == x;
    assert t == (x + [sep]) + y;
    SplitFromShift(x + [sep], y, sep, 0, 0);
  }

  /** The other direction of the round trip: pieces without separators come back from
      cutting their join. */
  lemma {:induction false} JoinSplitRoundTrip(pieces: seq<string>, sep: char)
    requires |pieces| >= 1
    requires forall k :: 0 <= k < |pieces| ==> sep !in pieces[k]
    ensures Split(Join(pieces, sep), sep) == pieces
    decreases |pieces|
  {
    if |pieces| == 1 {
      var s := pieces[0];
      SplitFromSkip(s, sep, 0, 0, |s|);
      assert s[0..] == s;
    } else {
      JoinSplitRoundTrip(pieces[1..], sep);
      SplitCons(pieces[0], sep, Join(pieces[1..], sep));
      assert [pieces[0]] + pieces[1..] == pieces;
    }
  }

  // ---------------------------------------------------------------------------
  // ASCII case mapping (the model's stand-in for toLowerCase/toUpperCase)

  function LowerChar(c: char): (r: char)
    ensures 'A' <= c <= 'Z' ==> 'a' <= r <= 'z'
    ensures !('A' <= c <= 'Z') ==> r == c
  {
    if 'A' <= c <= 'Z' then (c as int + 32) as char else c
  }

  function UpperChar(c: char): (r: char)
    ensures 'a' <= c <= 'z' ==> 'A' <= r <= 'Z'
    ensures !('a' <= c <= 'z') ==> r == c
  {
    if 'a' <= c <= 'z' then (c as int - 32) as char else c
  }

  function Lower(s: string): (r: string)
    ensures |r| == |s| && forall i :: 0 <= i < |s| ==> r[i] == LowerChar(s[i])
  {
    seq(|s|, i requires 0 <= i < |s| => LowerChar(s[i]))
  }

  function Upper(s: string): (r: string)
    ensures |r| == |s| && forall i :: 0 <= i < |s| ==> r[i] == UpperChar(s[i])
  {
    seq(|s|, i requires 0 <= i < |s| => UpperChar(s[i]))
  }

  // ---------------------------------------------------------------------------
  // Decimal printing of naturals, as template literals print integers

  predicate IsDigit(c: char) { '0' <= c <= '9' }

  function DigitChar(d: nat): (c: char)
    requires d < 10
    ensures IsDigit(c)
  {
    ('0' as int + d) as char
  }

  function DigitValue(c: char): nat
    requires IsDigit(c)
  {
    c as int - '0' as int
  }

  function NatToDecimal(n: nat): (s: string)
    ensures s != [] && forall i :: 0 <= i < |s| ==> IsDigit(s[i])
  {
    if n < 10 then [DigitChar(n)] else NatToDecimal(n / 10) + [DigitChar(n % 10)]
  }

  function DecimalValue(s: string): nat
    requires forall i :: 0 <= i < |s| ==> IsDigit(s[i])
  {
    if s == [] then 0 else 10 * DecimalValue(s[..|s| - 1]) + DigitValue(s[|s| - 1])
  }

  /** Printing is injective: the printed digits read back as the number. */
  lemma {:induction false} DecimalRoundTrip(n: nat)
    ensures DecimalValue(NatToDecimal(n)) == n
  {
    if n >= 10 {
      var s := NatToDecimal(n);
      assert s[..|s| - 1] == NatToDecimal(n / 10);
      DecimalRoundTrip(n / 10);
    }
  }

  // ---------------------------------------------------------------------------
  // Array.prototype.filter

  /** `s.filter(keep)` applied to the first `n` elements. */
  function FilterUpTo<T>(keep: T -> bool, s: seq<T>, n: nat): (r: seq<T>)
    requires n <= |s|
    ensures |r| <= n
  {
    if n == 0 then [] else FilterUpTo(keep, s, n - 1) + (if keep(s[n - 1]) then [s[n - 1]] else [])
  }

  /** `s.filter(keep)`: the elements that pass, in their order. */
  function Filter<T>(keep: T -> bool, s: seq<T>): (r: seq<T>)
    ensures |r| <= |s|
  {
    FilterUpTo(keep, s, |s|)
  }

  lemma {:induction false} FilterUpToMembers<T>(keep: T -> bool, s: seq<T>, n: nat)
    requires n <= |s|
    ensures forall x :: x in FilterUpTo(keep, s, n) <==> x in s[..n] && keep(x)
  {
    if n > 0 {
      FilterUpToMembers(keep, s, n - 1);
      assert s[..n] == s[..n - 1] + [s[n - 1]];
    }
  }

  /** An element is kept exactly when it is in the input and passes the test. */
  lemma FilterMembers<T>(keep: T -> bool, s: seq<T>)
    ensures forall x :: x in Filter(keep, s) <==> x in s && keep(x)
  {
    FilterUpToMembers(keep, s, |s|);
    assert s[..|s|] == s;
  }

  lemma {:induction false} FilterUpToSamePrefix<T>(keep: T -> bool, s: seq<T>, t: seq<T>, n: nat)
    requires n <= |s| && n <= |t| && forall i :: 0 <= i < n ==> s[i] == t[i]
    ensures FilterUpTo(keep, s, n) == FilterUpTo(keep, t, n)
  {
    if n > 0 {
      FilterUpToSamePrefix(keep, s, t, n - 1);
    }
  }

  lemma {:induction false} FilterUpToAppend<T>(keep: T -> bool, a: seq<T>, b: seq<T>, k: nat)
    requires k <= |b|
    ensures FilterUpTo(keep, a + b, |a| + k) == Filter(keep, a) + FilterUpTo(keep, b, k)
  {
    if k == 0 {
      FilterUpToSamePrefix(keep, a + b, a, |a|);
    } else {
      FilterUpToAppend(keep, a, b, k - 1);
      assert (a + b)[|a| + k - 1] == b[k - 1];
    }
  }

  /** Filtering a concatenation filters each part. */
  lemma FilterAppend<T>(keep: T -> bool, a: seq<T>, b: seq<T>)
    ensures Filter(keep, a + b) == Filter(keep, a) + Filter(keep, b)
  {
    FilterUpToAppend(keep, a, b, |b|);
  }

  // ---------------------------------------------------------------------------
  // Realtime channel topics

  /** The channel topic `report:<id>:<kind>` the realtime hooks subscribe to. */
  function Topic(reportId: string, kind: string): string {
    "report:" + reportId + ":" + kind
  }

  /** A report's presence channel is never any report's sync channel. */
  lemma TopicsApart(a: string, b: string)
    ensures Topic(a, "presence") != Topic(b, "sync")
  {
    var p, q := Topic(a, "presence"), Topic(b, "sync");
    assert p[|p| - 1] == "presence"[7] == 'e';
    assert q[|q| - 1] == "sync"[3] == 'c';
  }

  /** Channels of one kind are distinct for distinct reports. */
  lemma TopicDeterminesReport(a: string, b: string, kind: string)
    ensures Topic(a, kind) == Topic(b, kind) ==> a == b
  {
    var p, q := Topic(a, kind), Topic(b, kind);
    assert p[7..7 + |a|] == a;
    assert q[7..7 + |b|] == b;
  }
}
